# A verified model of the wl-00 RV32 kernel

wl-00 is a small Sv32 kernel for several harts.  This project models its hard core in Dafny and proves
what the kernel relies on:

* **The process and lock protocol** (`Protocol*.dfy`): spinlocks with interrupt nesting, the scheduler and the
  hand-off of `p->lock` through `swtch`, `sleep`/`wakeup`, `fork`/`wait`/`kexit` with reparenting, and the tick
  sleep, as a step system.  A step is one lock acquisition with the accesses behind it, one release, one context
  switch, or one critical section that takes no further lock.  The numbers of harts and process slots are arbitrary.
  Two inductive invariants (`ProtocolInv.Inv` and, on top of it, `ProtocolFamily.FamilyInv`) are kept by every step of
  every hart.  From them follow safety in every state of every run (`ProtocolSafety`, `ProtocolFamily`), what each
  system call does from its start to its return (`ProtocolCalls`, `ProtocolSleep`), the life cycle of a slot
  (`ProtocolLife`), and progress: no deadlock, and bounds on the work of a call and of the scheduler
  (`ProtocolProgress`, `ProtocolWork`, `ProtocolSched`).
* **One spinlock at the grain of single memory accesses** (`Spinlock.dfy`): it refines an atomic lock, access by access,
  and every call of `lock`, `unlock` and `holding` ends as it should.
* **Physical pages and Sv32 address spaces** (`Layout` to `CopySpace`): the bitmap allocator, two-level tables kept
  in allocated pages, and every operation on them, as methods on a machine whose RAM is a map from page numbers to
  4096 bytes.  A table stands for a finite map (`PageTable.Flat`); a user sees a `View`: for each user page its
  flags and its bytes.  All higher contracts speak about views and about sets of pages.
* **Processes as owners of pages** (`ProcMemory`, `Fork`, `Kernel`): after every operation, whether it succeeded or
  not, every page is free or belongs to exactly one process slot, and no other process sees a change.
* **exec** (`Elf`, `ElfFile`, `Loader`, `Args`, `ArgStack`, `Exec`, `UserArgs`, `Gather`, `SysExec`): what the ELF loader puts
  where, the build-aside-then-commit structure, and the way of the arguments from the caller's memory through a
  kernel page onto the new stack.
* **64-bit timer values in 32-bit halves** (`Timer.dfy`).

The two parts meet at `releaseproc` and `kexit`: the protocol proves when a slot's resources are given back (once, and
with no hart on the stack), the memory part proves which pages that frees.

Conventions.  `panic` is an unreachable state (protocol) or a precondition that every caller is proved to meet
(memory: unaligned or double `kfree`, a remap in `mappage`, an unaligned `uvmunmap`).  That an operation fails for lack
of memory is a statement about numbers of pages: `PageCount` shows that a space owns one page for its root, one for
each second-level table and one for each user page, and the contracts give the exact number of free pages below which
`mappage`, `uvmalloc`, `init_userpt`, `procalloc`, `fork`, `load_elf` and `exec` fail.  Physical page number 0 stands for
NULL.  Constants, 32-bit sums and error returns are those of the code.  `a0`, `a1`, `sp` and `epc` are the words
of the trapframe page at the offsets of `struct trapframe_t`.

Where the code and its comments disagree, the model follows the code: the bounds test on program headers
(kernel/exec.c:67) is meant to keep every read inside the image, but `off + 32` is a 32-bit sum.  `Elf.AstrayExists`
gives an image that passes the test with a header outside it.  `Elf.ReachedInside` says exactly when the property
holds: every header the loader can get to lies in the image unless the table starts in the last 32 bytes of the address
space (`Elf.Astray`, a test on the ELF header).  `Loader.LoadElf` says the same of the headers it has read, and
`Elf.AroundIrrelevant` what it is good for: the memory around the image does not influence the outcome.

## Model

| member | source | states |
|---|---|---|
| `ProtocolTheorems.InitInv` | kernel/main.c:17-43 | the state that boot leaves behind satisfies the invariant |
| `ProtocolTheorems.StepInv` | kernel/proc.c:78-498 | every step of every hart keeps the whole invariant: lock ownership, depth, process states, fork, forest, exits, ticks, interrupts |
| `ProtocolTheorems.RunInv` | kernel/proc.c:78-498 | the invariant holds in every state of every run |
| `ProtocolCore.Frame` | kernel/proc.c:285-376 | a step that settles its own hart, locks and slots keeps the agreement of all other harts and slots |
| `ProtocolCore.CoreReturn` | kernel/proc.c:303-307 | after a switch back the scheduler releases an orphaned zombie, drops the lock, and everything stays consistent |
| `ProtocolCore.CoreResume` | kernel/proc.c:331-375 | a dispatched thread goes on in yield, sleep or forkret and lets go of its own lock without panic |
| `ProtocolFork.ForkReleased` | kernel/proc.c:142-164 | releasing a slot moves its pid from the table to the log and leaves pids unique |
| `ProtocolFork.ForkPid` | kernel/proc.c:48-53 | a new pid differs from every pid in the table and in the log |
| `ProtocolForest.OneWaiter` | kernel/proc.c:459-495 | two processes inside wait_lock sections are the same process |
| `ProtocolForest.ForestHandOver` | kernel/proc.c:469-481 | handing a child to the reaper keeps parents live and older than their children |
| `ProtocolForest.ForestLinkChild` | kernel/proc.c:400-406 | linking a child keeps the forest: the parent is older |
| `ProtocolLost.LostSleepRel` | kernel/proc.c:349-352 | a process that lets go of wait_lock inside sleep has no zombie child |
| `ProtocolLost.LostHandOver` | kernel/proc.c:469-484 | a zombie handed to the reaper is announced to it |
| `ProtocolLost.LostWake` | kernel/proc.c:361-369 | wakeup passes over no process it has to wake |
| `ProtocolLost.LostZombie` | kernel/proc.c:486-495 | a process becomes a zombie only after its parent was woken |
| `ProtocolTicks.TicksScan` | kernel/trap.c:31-38 | the tick handler passes over no sleeper whose time has come |
| `ProtocolTicks.IntrResume` | kernel/proc.c:329-331 | a resumed thread finds its own interrupt-enable state, on whatever hart |
| `ProtocolSafety.NoPanic` | kernel/proc.c:313-332 | no panic of lock, unlock, pop_off, sched, releaseproc or kexit is reachable |
| `ProtocolMisuse.NoSelfLock` | kernel/spinlock.c:51-54 | no hart asks for a lock it holds |
| `ProtocolMisuse.UnlocksItsOwn` | kernel/spinlock.c:63-71 | a hart gives back only a lock it holds, with interrupts off and positive depth, and then nobody holds it |
| `ProtocolMisuse.SchedCalledRight` | kernel/proc.c:313-328 | sched is entered with p->lock held and no other lock, not RUNNING, interrupts off |
| `ProtocolMisuse.ExitOnce` | kernel/proc.c:453-498 | kexit has an address space to free, and a zombie is never resumed |
| `ProtocolSafety.NoLostExit` | kernel/proc.c:349-498 | whenever wait_lock is free, a process asleep in wait has no zombie child, inherited ones included |
| `ProtocolSafety.ParentsAreLive` | kernel/proc.c:400-498 | every parent is a live process with a smaller pid |
| `ProtocolSafety.ForestAcyclic` | kernel/proc.c:48-53 | pids fall strictly along parent pointers, so no process is its own ancestor |
| `ProtocolSafety.ReleaseIsSafe` | kernel/proc.c:139-164 | a slot is released only when no hart is on its stack, with its address space gone or never used |
| `ProtocolSafety.LogStep` | kernel/proc.c:297-496 | a step logs exactly the pid of the slot it releases |
| `ProtocolSafety.PidsConserved` | kernel/proc.c:48-164 | every pid ever handed out is in the table or was released |
| `ProtocolSafety.ReleasedOnce` | kernel/proc.c:423-496 | no pid is released twice, by wait, kexit, the scheduler or a failed fork, and none comes back |
| `ProtocolSafety.LogGrows` | kernel/proc.c:142-164 | releases are for good |
| `ProtocolSafety.OneHart` | kernel/proc.c:285-311 | two harts never have the same current process |
| `ProtocolSafety.RunningIffOnHart` | kernel/proc.c:285-376 | whenever p->lock is free, p is RUNNING iff some hart has it as its current process |
| `ProtocolSafety.DispatchAfterSave` | kernel/proc.c:297-346 | a hart loads a context only after it was saved, with p->lock held and no other hart on p |
| `ProtocolLife.LifeCycle` | kernel/proc.c:78-498 | which step takes a slot from which state to which: claimed, linked, dispatched, preempted, asleep, woken on its own channel only, exited, released; each of these steps does so and no other step changes a state |
| `ProtocolThreads.OnlyActorMoves` | kernel/proc.c:285-498 | no step moves a thread but its own, and only fork's link and kexit's hand-over change a parent |
| `ProtocolFamily.FamilyStep` | kernel/proc.c:411-498 | every step keeps what wait knows about its children, why kexit has no reaper, and that orphans and parentless zombies are on their way |
| `ProtocolFamily.NoReaper` | kernel/proc.c:461-467 | kexit finds no reaper only if no other process of pid 1 is alive, asleep or not |
| `ProtocolFamily.NoOrphans` | kernel/proc.c:461-481 | whenever wait_lock is free and init lives, every other live or zombie process has a parent |
| `ProtocolFamily.AllDescendFromInit` | kernel/proc.c:378-498 | whenever wait_lock is free and init lives, following parents from any process leads to init |
| `ProtocolFamily.ZombieHasReaper` | kernel/proc.c:303-307 | a zombie whose lock is free has a live parent to reap it: parentless ones are released by kexit or the scheduler |
| `ProtocolFamily.SleeperHasChild` | kernel/proc.c:415-449 | a process asleep in wait has a child |
| `ProtocolCalls.AnythingMayHappen` | kernel/proc.c:378-498 | in user mode every call and a fault can start, at the right place, and the timer can interrupt as soon as its lock is free |
| `ProtocolCalls.ForkEnds` | kernel/proc.c:378-409 | from call to return, in every run: fork returns -1 because each slot was in use when tried, -1 because an allocation failed, or the pid, new during the call, of a process in a slot unused during the call whose parent is the caller |
| `ProtocolCalls.WaitMoves` | kernel/proc.c:411-451 | a step ends wait only by reaping a zombie child, on a failed copyout for one, or when there is no child |
| `ProtocolCalls.WaitEnds` | kernel/proc.c:411-451 | from call to return, in every run: wait returns the pid of a zombie child that it released, or -1 for a failed copyout or because there was no child |
| `ProtocolCalls.ExitIsFinal` | kernel/proc.c:453-498 | a process that called kexit never executes user code again; its pid is on its way to the release log or in it |
| `ProtocolWork.WorkShrinks` | kernel/proc.c:378-498 | every step of a system call leaves strictly less to do, so no loop of fork, wait, wakeup or kexit runs forever |
| `ProtocolWork.CallsAreBounded` | kernel/proc.c:378-498 | between entering the kernel or waking up and returning, sleeping or dying, a process takes at most 3*NPROC+10 steps, in every run |
| `ProtocolSafety.InterruptNesting` | kernel/spinlock.c:27-45 | positive depth means interrupts off; outside all locks a process has its own interrupt-enable state back |
| `ProtocolSafety.ElapsedAtMostTrue` | kernel/syscall.c:163 | wrapped elapsed time never exceeds true elapsed time, and equals it below 2^32 |
| `ProtocolSafety.SleepsLongEnough` | kernel/syscall.c:156-168 | when sys_sleep(n) returns, at least n ticks have passed since the start value it read under tickslock, across wraparound |
| `ProtocolSafety.SleeperNotForgotten` | kernel/trap.c:31-38 | whenever tickslock is free, a process waiting for ticks has not slept long enough yet |
| `ProtocolSleep.StillSleeping` | kernel/syscall.c:156-168 | whatever any hart does, a process inside sys_sleep(n) stays in it, with the same n, until its own return; its slot is not released |
| `ProtocolSleep.SleepTakesTicks` | kernel/syscall.c:156-168 | sys_sleep(n) returns to user mode, and from the call of sys_sleep(n) in any state of any run to its first return the tick count has grown by at least n, across wraparound of the 32-bit counter |
| `ProtocolProgress.LockOrder` | kernel/spinlock.c:51-71 | a lock is requested only while every lock held is of lower rank: {wait_lock, tickslock} before one process lock before the leaf locks |
| `ProtocolProgress.EveryRequest` | kernel/spinlock.c:51-71 | a step that lacks nothing but lock l is one of the requests the order speaks about: no acquisition escapes it |
| `ProtocolProgress.OneProcLock` | kernel/proc.c:285-498 | no hart ever holds two process locks |
| `ProtocolProgress.NoDeadlock` | kernel/proc.c:349-498 | whatever locks the harts request, some hart does not wait for another |
| `ProtocolProgress.UnblockedMoves` | kernel/proc.c:285-498 | a hart whose wanted lock is not held elsewhere can take the next step of its own code (not an interrupt, not an optional leaf lock): it is never stuck for another reason |
| `ProtocolProgress.SomeHartMoves` | kernel/proc.c:285-498 | in every state of every run some hart can take the next step of its own code |
| `ProtocolProgress.BypassPerHart` | kernel/proc.c:295-308 | while a process is READY, each hart dispatches at most NPROC-1 others |
| `ProtocolProgress.BoundedBypass` | kernel/proc.c:285-311 | a READY process sees at most NCPU*(NPROC-1) other dispatches before its own |
| `ProtocolSched.ComesRound` | kernel/proc.c:285-311 | while a process is READY, each hart looks at slots and opens interrupts at most NPROC+1 times |
| `ProtocolSched.DispatchRuns` | kernel/proc.c:295-302 | a READY slot that a hart picks is executing on it three steps later, where it left off, with its lock free |
| `ProtocolSched.LeavesHart` | kernel/proc.c:313-332 | a thread inside sched is off its hart two steps later, its slot as it left it, or released if it is an orphaned zombie |
| `ProtocolSched.PreemptYields` | kernel/proc.c:334-346 | a timer interrupt makes a running process READY where it was and gives the hart back to the scheduler |
| `ProtocolSched.TicksCount` | kernel/trap.c:31-38 | ticks counts the timer interrupts of hart 0 and nothing else |
| `Spinlock.StepInv` | kernel/spinlock.c:47-71 | every single access of every hart keeps word, owner field and positions in agreement |
| `Spinlock.MutualExclusion` | kernel/spinlock.c:51-71 | at most one hart is in the critical section, in every interleaving |
| `Spinlock.HoldingIsExact` | kernel/spinlock.c:47-49 | holding answers truthfully for its caller; lock and unlock panic only when misused |
| `Spinlock.MisusePanics` | kernel/spinlock.c:51-71 | a lock by the holder and an unlock by anybody else always reach the panic, at whichever of the two reads decides |
| `Spinlock.RefinesAtomicLock` | kernel/spinlock.c:51-71 | access by access: the swap that finds the lock free takes it for its hart, the store of 0 gives the hart's own lock back, every other access leaves the owner as it is |
| `Spinlock.CallStarts` | kernel/spinlock.c:47-71 | a call begins as the operation that was called, knowing whether its caller is in the critical section |
| `Spinlock.CallAdvances` | kernel/spinlock.c:47-71 | each access brings a call of lock, unlock or holding nearer to its outcome, except a swap while another hart owns the lock, which changes nothing |
| `Spinlock.CallEnds` | kernel/spinlock.c:47-71 | in every run a call that made four accesses besides failed swaps has reached its outcome: inside, outside, the true answer, or the panic exactly on misuse |
| `Timer.ReadTime` | kernel/csr.c:167-176 | the result is the clock's exact value at the last low-half read; the retry loop ends |
| `Timer.CompareRegister.Write` | kernel/csr.c:182-187 | the three values the register shows during the update, in order; none lies below both the old and the new deadline |
| `Layout.PteRoundTrip` | kernel/vm.h:15-17 | encoding and decoding a page-table entry are inverse to each other |
| `Layout.PteBits` | kernel/vm.h:10-17 | an entry has exactly the permission bits it was made from |
| `PageTable.TreeFrame` | kernel/vm.c:146-166 | memory changes outside the tables change no translation |
| `PageTable.SetLeaf` | kernel/vm.c:96-101 | writing the entry of one page changes the translation of that page only |
| `PageTable.AddTable` | kernel/vm.c:157-163 | installing an empty second-level table changes no translation |
| `PageTable.EmptyTable` | kernel/vm.c:120-127 | a zeroed page is an empty page table |
| `Memory.Machine.constructor` | kernel/mem.c:52-60 | after init_bitmap exactly the pages above the kernel image are free, and zero |
| `Memory.Machine.FreeRange` | kernel/mem.c:63-70 | for any range of used pages: zeroes and frees every whole page of the range and no other |
| `Memory.Machine.Kalloc` | kernel/mem.c:110-124 | the lowest free page becomes used; NULL exactly when none is free |
| `Memory.Machine.Kfree` | kernel/mem.c:92-106 | the page is zeroed and free; its three panics are preconditions |
| `Memory.Machine.ZeroPage` | kernel/mem.c:82-89 | memset of one page to zero, nothing else |
| `Memory.Machine.Store` | kernel/mem.c:133-153 | a copy into one page changes those bytes only |
| `Memory.MemMove` | kernel/mem.c:133-153 | correct also for overlapping ranges; nothing outside the destination changes |
| `Vm.FindPte` | kernel/vm.c:146-166 | finds or makes the second-level table, changes no translation; fails exactly without memory |
| `Vm.MapPage` | kernel/vm.c:90-104 | adds exactly one translation; on failure nothing changed |
| `Vm.MapPages` | kernel/vm.c:52-86 | rejects unaligned or empty ranges; otherwise maps exactly size/4096 pages, also when the end wraps to 0 |
| `Space.UvmUnmap` | kernel/vm.c:263-277 | removes exactly the range's translations and frees exactly their pages; tables stay |
| `Space.FreeWalk` | kernel/vm.c:292-306 | exactly the table pages become free |
| `UserSpace.SpaceFrame` | kernel/vm.c:263-332 | what happens outside a space's pages leaves the space, its pages and its view alone |
| `UserSpace.UnmapKeeps` | kernel/vm.c:263-277 | freed and remaining pages add up; every other page stays in view |
| `UserSpace.UvmFree` | kernel/vm.c:281-290 | exactly the pages of the space become free, nothing else is written |
| `PageCount.SpaceCount` | kernel/vm.c:281-306 | a space owns one page for its root, one for each second-level table and one for each user page, none of them free |
| `PageCount.KeptCount` | kernel/vm.c:146-332 | free pages, tables and user pages add up to the same number before and after every operation on a space |
| `Grow.MapFresh` | kernel/vm.c:318-330 | one more user page with given contents and flags, or the space as before; fails exactly if there are fewer free pages than one, or two when its table is missing |
| `Grow.UvmAlloc` | kernel/vm.c:312-332 | the view gains exactly the zeroed pages of the range; 0 exactly if the free pages are fewer than the range's pages and the tables it lacks, and then view and translations are as before and no page is lost |
| `InitSpace.InitUserPt` | kernel/proc.c:56-74 | 0 exactly if fewer than 34 pages are free, every page then free again; else a space of 34 pages with exactly the kernel's identity mappings and nothing for the user |
| `InitSpace.KernelRights` | kernel/proc.c:56-74 | the kernel's mappings are identity mappings, never for the user; text and trampoline executable and not writable, all else writable and not executable |
| `UserCopy.FindUserPaIs` | kernel/vm.c:168-177 | translates exactly the addresses whose page has PTE_V, PTE_U and the needed bit, to the page of the view |
| `UserCopy.WrittenTwice` | kernel/vm.c:204-220 | two writes in a row are one write of the concatenation, around the top of the address space too |
| `UserCopy.CopyOut` | kernel/vm.c:204-220 | succeeds iff every byte is user-writable; then exactly those bytes change; otherwise a prefix was written |
| `UserCopy.CopyIn` | kernel/vm.c:185-201 | succeeds iff every byte is user-readable, and then delivers exactly the user's bytes |
| `UserCopy.CopyInStr` | kernel/vm.c:227-260 | succeeds iff a readable NUL-terminated string starts there within max bytes, and delivers it |
| `CopySpace.UvmCopy` | kernel/proc.c:216-271 | the child sees exactly the parent's bytes and flags on pages of its own; the parent is untouched; fails exactly if the parent has no stack page or the free pages are fewer than its pages and their tables; what a failed copy left can be freed |
| `CopySpace.Isolation` | kernel/proc.c:216-271 | once two spaces share no page, writes through one are invisible through the other |
| `ProcMemory.PartitionStep` | kernel/proc.c:78-164 | trading pages between one slot and free memory keeps every page free or owned by exactly one slot, and no other slot sees it |
| `ProcMemory.ReleaseProc` | kernel/proc.c:142-164 | exactly the slot's stack, trapframe, tables and user pages become free |
| `ProcMemory.DropPt` | kernel/proc.c:456-457 | kexit's uvmfree frees exactly the address space |
| `Fork.BuildSlot` | kernel/proc.c:95-119 | stack, zeroed trapframe and fresh table from 36 free pages, or every page free again exactly if there are fewer |
| `Fork.ForkFrameIs` | kernel/proc.c:394-397 | the child's registers are the parent's, but a0 is 0 |
| `Fork.ForkSlot` | kernel/proc.c:378-398 | the child sees what the parent sees and owns only formerly free pages; fails exactly if the parent has no stack page or the free pages are fewer than ForkPages of its view, and then restores the free set; nothing else is written |
| `Elf.FitsIn32Bits` | kernel/exec.c:72-77 | the loader's 32-bit overflow tests accept exactly the segments that fit |
| `Elf.HeaderBounds` | kernel/exec.c:65-68 | a program header that passes the test lies in the image, for a table that starts in it |
| `Elf.FirstHeader` | kernel/exec.c:66-67 | the test on the first header passes iff the header is in the image or wraps |
| `Elf.AstrayExists` | kernel/exec.c:66-68 | an image whose one header passes the test and lies outside the image |
| `Elf.ReadsInside` | kernel/exec.c:65-68 | the headers read up to the point where a test fails all lie in the image iff the table is not astray |
| `Elf.ReachedInside` | kernel/exec.c:65-68 | every header the loader can get to lies in the image iff the table is not astray |
| `Elf.AroundIrrelevant` | kernel/exec.c:48-94 | unless the table is astray, two images with the same bytes are accepted alike, with the same end and entry, whatever lies around them in memory |
| `ElfFile.HeaderRead` | kernel/elf.h:9-25 | from a file header written field by field the loader reads entry, phoff and phnum as written, and accepts it iff it is that of a 32-bit RISC-V executable with 32-byte program headers |
| `ElfFile.SegmentRead` | kernel/elf.h:31-40 | a program header written field by field reads back as written |
| `ElfFile.AcceptsWellLaidOut` | kernel/exec.c:55-77 | load_elf accepts a file iff its PT_LOAD segments are page aligned, in user space, backed by the file, ascending and disjoint; the segments it sees are those written |
| `Loader.LoadSegment` | kernel/exec.c:106-124 | writes exactly the file bytes, iff every page is mapped |
| `Loader.PermFlags` | kernel/exec.c:79-82 | the page flags of a segment: executable iff PF_X, writable iff PF_W, always valid, readable and the user's |
| `Loader.LoadedNext` | kernel/exec.c:79-88 | a further segment disturbs none loaded before and extends the image to its end |
| `Loader.LoadElf` | kernel/exec.c:48-94 | every byte of every loaded segment reads as the image says (zero above filesz), on pages that are executable iff PF_X and writable iff PF_W; the user pages are exactly [USER_BASE, sz); success iff the image is acceptable and the free pages cover its pages and tables; every header read had passed its test, and all of them lie in the image iff the table is not astray |
| `ArgStack.StackPointer` | kernel/exec.c:160-162 | the 32-bit sp arithmetic of the pushes and the test against stackbase are the offset arithmetic on the stack page |
| `Args.StringPushed` | kernel/exec.c:157-165 | a pushed string is where ustack says and overwrites no earlier one |
| `Args.ArrayPushed` | kernel/exec.c:166-170 | the array below the strings reads back as their addresses and a closing 0 |
| `ArgStack.PushArgs` | kernel/exec.c:154-170 | reads the strings from the kernel page, which the pushes leave alone; succeeds iff at most MAXARG strings with their array fit in the stack page; only that page changes |
| `Exec.BufferAside` | kernel/exec.c:138-170 | the kernel page with the strings survives everything exec does with formerly free pages |
| `Exec.StackCost` | kernel/exec.c:139-149 | after the image is loaded, the stack page and its table can be had iff the free pages at the start were at least PagesNeeded, a number computed from the image |
| `Exec.BuildImage` | kernel/exec.c:138-170 | a complete new space on formerly free pages iff image and arguments are acceptable and the free pages are at least PagesNeeded; else every page free again |
| `Exec.ExecFrameIs` | kernel/exec.c:177-179 | exec sets epc, sp and a1 and no other register |
| `Exec.Commit` | kernel/exec.c:172-188 | the slot owns the new space, unchanged, with the new pc, sp and a1; exactly the old space's pages became free |
| `Exec.KExec` | kernel/exec.c:132-193 | all or nothing: -1 iff no such program, image or arguments unacceptable, or fewer than PagesNeeded pages free, and then slot, free set and all other memory are unchanged; else the caller is the new program on pages that were free, and exactly the old space's pages became free |
| `UserArgs.SameString` | kernel/vm.c:222-226 | the string at a user address is determined by the view |
| `UserArgs.SameArgv` | kernel/syscall.c:77-93 | the argument list at a user address is determined by the view |
| `UserArgs.ArgvVisible` | kernel/exec.c:151-179 | the finished stack page reads, through the new table, as the argument list, 16-byte aligned |
| `Args.CStringIs` | kernel/syscall.c:88-90 | strlen on the packed page finds the string that was stored |
| `Gather.PackedNext` | kernel/syscall.c:80-92 | a later string overwrites none of the earlier ones in the page |
| `Gather.StillReads` | kernel/syscall.c:71-90 | filling the kernel page does not change what the caller's memory reads as |
| `Gather.GatherArgs` | kernel/syscall.c:77-93 | gathers exactly the caller's list, iff there is one of at most MAXARG strings that fit in a page; the strings are in the kernel page where the pointers say, and no other page was written |
| `SysExec.ReadPath` | kernel/syscall.c:67-68 | the path is the caller's string, shorter than MAXPATH |
| `SysExec.OneRequest` | kernel/syscall.c:67-93 | a caller's path and list are determined by its memory and registers |
| `SysExec.ExecRequest` | kernel/syscall.c:61-99 | fails iff no request the caller's memory and registers make can be satisfied with the free pages there are, and then nothing changed; else the program that was asked for with the arguments that were given, on formerly free pages; exactly the old space's pages became free and the buffer page is given back |
| `SysExec.ArgumentsArrive` | kernel/exec.c:151-188 | a0 is the number of arguments, a1 the aligned array of pointers ending in 0, each at a string equal to the caller's |
| `Kernel.ProcTable.constructor` | kernel/proc.c:37-46 | an empty process table over the free pages satisfies the partition |
| `Kernel.ProcTable.Release` | kernel/proc.c:142-164 | keeps the partition, empties the slot, frees exactly its pages |
| `Kernel.ProcTable.ProcAlloc` | kernel/proc.c:78-120 | keeps the partition; takes the lowest unused slot iff there is one and 36 pages are free; else table and free set are as before |
| `Kernel.ProcTable.ExitSpace` | kernel/proc.c:455-457 | keeps the partition; exactly the pages of the address space become free, stack and trapframe stay with the slot |
| `Kernel.ProcTable.ForkFrom` | kernel/proc.c:378-409 | keeps the partition; the child is in the lowest unused slot, its view equals the parent's, which is unchanged; fails iff there is no such slot, the parent has no stack page or too few pages are free, and then changes neither table nor free set |
| `Kernel.ProcTable.StoreToUser` | kernel/proc.c:428-432 | keeps the partition; changes the bytes of one process and no other process sees it |
| `Kernel.ProcTable.ExecCall` | kernel/syscall.c:189-200 | keeps the partition; fails iff the request is not feasible, and then only a0 changes; on success the caller's list, read from its old memory, is the list the new program reads, the new space is made of formerly free pages and exactly the old space's pages became free |

## Left out

- Weak memory order and the TLB: `fence` and `sfence.vma` have no effect here; accesses are sequentially consistent and the walk is always current.
- The test at kernel/proc.c:463 is one atomic step of the protocol; its two reads are not under `q->lock`, which is safe because init never exits (user/init.c:42).
- Pids are unbounded; `curr_pid` is a C int.
- Exit statuses: `wait` stores one, or fails to, but its value is not followed from `kexit`.
- In the protocol, a slot's page table, stack and trapframe are present or absent; which pages they are is the matter of the memory part.
- Memory operations are modelled call by call, not interleaved with other harts; `mem_lock` appears in the protocol as a leaf lock, and the contracts say that a call touches only free pages and pages of its own process.
- `copyinstr` into the kernel page is a scan into a copy of the page that is then stored; the page is none of the caller's, so the order of its reads and writes does not show.
- `uvmalloc`'s one-page `mappages` call is modelled as `mappage`.
- Grow.UvmAlloc: second-level tables made before a failure stay with the space, as in the code; the contract says so by conserving free pages and space together.
- Kernel.ProcTable.ProcAlloc: the slot search does not interleave with other harts here; the protocol part covers the race for a slot.
- Liveness: no fairness is assumed; the bounds are on dispatches, not on time.
- Boot: `boot.c`, `kernel.ld`, `kptable_make`, `uvmfirst`; the layout (trampoline inside RAM, page-aligned end) is a precondition.
- Assembly (`swtch.S`, trap entry and return) is a saved or restored context.
- UART, printing, the stub system calls, `sys_write`, `find_program`'s linear search (a map from names to images here) and the user programs.

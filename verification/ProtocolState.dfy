/** The shared state of the process protocol of kernel/proc.c, kernel/spinlock.c and
    kernel/trap.c, and its atomic steps.

    Every step belongs to one hart.  A step is one lock acquisition with the accesses that
    follow it, one release, one context switch, or one whole critical section that takes no
    further lock.  The number of harts and of process slots is arbitrary. */
module ProtocolState {
  import opened Options

  datatype PState = Unused | New | Ready | Running | Waiting | Zombie

  datatype Chan = NoChan | OnProc(slot: nat) | OnTicks

  /** Locks that are taken last and under which nothing blocks. */
  datatype Leaf = PidLeaf | MemLeaf | PrintLeaf

  datatype LockId = WaitLock | TicksLock | ProcLock(slot: nat) | LeafLock(leaf: Leaf)

  /** What a sleeper waits for: a child's exit, or `n` ticks counted from true tick `start`. */
  datatype Reason = ForChild | ForTicks(start: nat, n: nat)

  /** Where a process thread is in the kernel.  `Run` is user mode. */
  datatype Pc =
    | Run
    // fork: procalloc's scan, allocpid, building the child, linking it under wait_lock
    | Claim(i: nat) | TakePid(c: nat) | Build(c: nat) | Discard(c: nat) | LinkLock(c: nat) | Link(c: nat)
    | Unwait(ret: Option<nat>)                // about to release wait_lock and return a pid, or -1
    // wait
    | WaitLk | Scan(i: nat, have: bool)
    // sleep: both locks held; only p->lock held; switched away; woken and retaking the caller's lock
    | SleepBoth(r: Reason) | SleepOwn(r: Reason) | Asleep(r: Reason) | Relock(r: Reason)
    // kexit
    | ExitFree | ExitLk | FindInit | Reparent(i: nat, reaper: Option<nat>, gave: bool)
    | Wake(i: nat, target: nat, last: bool) | ToParent | Die | ExitBoth | Dead
    // a process that has never run
    | Born
    // sys_sleep
    | TickLk(n: nat) | TickLoop(start: nat, n: nat)

  /** Progress of a context switch: running, inside sched() before swtch, context saved,
      or dispatched again and still holding its own lock. */
  datatype Sw = On | Leaving | Gone | Back

  /** `pt`, `kstack` and `tf` say whether the slot owns an address space, a kernel stack and a
      trapframe.  `hart` is the hart whose tp the thread last ran with, `saved` is sched()'s
      local copy of intena, `base` the interrupt-enable state of the thread outside all locks,
      and `creator` the slot that claimed this one in fork. */
  datatype Proc = Proc(
    pid: nat, state: PState, chan: Chan, parent: Option<nat>,
    pt: bool, kstack: bool, tf: bool,
    pc: Pc, sw: Sw, hart: nat, saved: bool, base: bool, creator: nat)

  /** The scheduler thread of a hart: between passes, about to try slot `i`, holding a picked
      process, running one, or just switched back from one. */
  datatype Mode = Open | Idle(i: nat) | Picked(p: nat) | InProc(p: nat) | Returned(p: nat)

  datatype Clk = NoTick | Tick(i: nat, sie: bool)

  datatype Hart = Hart(mode: Mode, clk: Clk, leaf: Option<Leaf>, depth: nat, intena: bool, sie: bool)

  /** `ticks` counts every tick ever taken; the C variable is its value modulo 2^32.
      `log` lists the pids passed to releaseproc, in order. */
  datatype State = State(
    procs: seq<Proc>, harts: seq<Hart>, held: map<LockId, nat>,
    ticks: nat, nextPid: nat, log: seq<nat>, panicked: bool)

  const WRAP: nat := 0x1_0000_0000

  const UNUSED_PROC := Proc(0, Unused, NoChan, None, false, false, false, Born, Gone, 0, false, false, 0)

  /** The C expression `ticks - start` on uint32_t operands. */
  function Elapsed(ticks: nat, start: nat): nat {
    (ticks % WRAP - start % WRAP) % WRAP
  }

  // ---------------------------------------------------------------- locks and interrupts

  predicate Holding(s: State, h: nat, l: LockId) {
    l in s.held && s.held[l] == h
  }

  /** lock(l) on hart h gets past its spin loop, or panics because h already holds l. */
  predicate Avail(s: State, h: nat, l: LockId) {
    l in s.held ==> s.held[l] == h
  }

  function PushOff(x: Hart): Hart {
    x.(intena := if x.depth == 0 then x.sie else x.intena, sie := false, depth := x.depth + 1)
  }

  function PopOff(x: Hart): Hart {
    if x.depth == 0 then x
    else x.(depth := x.depth - 1, sie := x.sie || (x.depth == 1 && x.intena))
  }

  function Acq(s: State, h: nat, l: LockId): State
    requires h < |s.harts|
  {
    s.(held := s.held[l := h],
    harts := s.harts[h := PushOff(s.harts[h])],
    panicked := s.panicked || Holding(s, h, l))
  }

  function Rel(s: State, h: nat, l: LockId): State
    requires h < |s.harts|
  {
    s.(held := s.held - {l},
    harts := s.harts[h := PopOff(s.harts[h])],
    panicked := s.panicked || !Holding(s, h, l) || s.harts[h].sie || s.harts[h].depth < 1)
  }

  function SetProc(s: State, p: nat, x: Proc): State
    requires p < |s.procs|
  {
    s.(procs := s.procs[p := x])
  }

  function SetMode(s: State, h: nat, m: Mode): State
    requires h < |s.harts|
  {
    s.(harts := s.harts[h := s.harts[h].(mode := m)])
  }

  function SetSie(s: State, h: nat, sie: bool): State
    requires h < |s.harts|
  {
    s.(harts := s.harts[h := s.harts[h].(sie := sie)])
  }

  /** releaseproc(q) by a hart holding q's lock: the slot's pages go back and the slot is UNUSED. */
  function Release(s: State, h: nat, q: nat): State
    requires q < |s.procs|
  {
    s.(procs := s.procs[q := UNUSED_PROC.(hart := s.procs[q].hart)],
    log := s.log + [s.procs[q].pid],
    panicked := s.panicked || !Holding(s, h, ProcLock(q)))
  }

  // ---------------------------------------------------------------- steps

  /** Hart h executes kernel or user code of process p, with no interrupt handler on top. */
  predicate Exec(s: State, h: nat, p: nat) {
    h < |s.harts| && p < |s.procs|
    && s.harts[h].mode == InProc(p) && s.harts[h].clk.NoTick? && s.harts[h].leaf.None?
  }

  predicate At(s: State, h: nat, p: nat) {
    Exec(s, h, p) && s.procs[p].sw == On
  }

  predicate InUser(s: State, h: nat) {
    h < |s.harts| && s.harts[h].mode.InProc? && At(s, h, s.harts[h].mode.p) && s.procs[s.harts[h].mode.p].pc == Run
  }

  /** The caller's lock that sleep() gives up. */
  function SleepLock(r: Reason): LockId {
    if r.ForChild? then WaitLock else TicksLock
  }

  function ChanOf(p: nat, r: Reason): Chan {
    if r.ForChild? then OnProc(p) else OnTicks
  }

  /** A system call or a fault starts at one of these points. */
  predicate EntryPoint(to: Pc, fault: bool) {
    if fault then to == ExitFree
    else to == ExitFree || to == Claim(0) || to == WaitLk || (to.TickLk? && to.n < WRAP / 2)
  }

  function Goto(s: State, p: nat, pc: Pc): State
    requires p < |s.procs|
  {
    SetProc(s, p, s.procs[p].(pc := pc))
  }

  /** The critical section lock(l); unlock(l) around a change already made to the data. */
  function Crit(s: State, h: nat, l: LockId): State
    requires h < |s.harts|
  {
    Rel(Acq(s, h, l), h, l)
  }

  /** What wakeup(chan) does to one slot. */
  function Woken(x: Proc, chan: Chan): Proc {
    if x.chan == chan && x.state == Waiting then x.(state := Ready) else x
  }

  // ---------------------------------------------------------------- scheduler()

  datatype SchedAct = Skip(i: nat) | Pick(i: nat) | OpenIntr | CloseIntr | SwtchIn(p: nat) | Return(p: nat)

  predicate SchedEnabled(s: State, h: nat, a: SchedAct) {
    && h < |s.harts| && s.harts[h].clk.NoTick? && s.harts[h].leaf.None?
    && match a
       case Skip(i) => s.harts[h].mode == Idle(i) && i < |s.procs| && Avail(s, h, ProcLock(i))
         && s.procs[i].state != Ready
       case Pick(i) => s.harts[h].mode == Idle(i) && i < |s.procs| && Avail(s, h, ProcLock(i))
         && s.procs[i].state == Ready
       case OpenIntr => s.harts[h].mode == Idle(|s.procs|)
       case CloseIntr => s.harts[h].mode == Open
       case SwtchIn(p) => s.harts[h].mode == Picked(p) && p < |s.procs|
       case Return(p) => s.harts[h].mode == Returned(p) && p < |s.procs|
  }

  function SchedStep(s: State, h: nat, a: SchedAct): State
    requires SchedEnabled(s, h, a)
  {
    match a
    case Skip(i) => SetMode(Crit(s, h, ProcLock(i)), h, Idle(i + 1))
    case Pick(i) =>
      var s1 := Acq(s, h, ProcLock(i));
      SetMode(SetProc(s1, i, s1.procs[i].(state := Running, hart := h)), h, Picked(i))
    case OpenIntr => SetSie(SetMode(s, h, Open), h, true)
    case CloseIntr => SetSie(SetMode(s, h, Idle(0)), h, false)
    case SwtchIn(p) =>
      // swtch loads p's context; unless p is new, sched() then restores intena
      var x := s.procs[p];
      var y := s.harts[h].(mode := InProc(p), intena := if x.pc == Born then s.harts[h].intena else x.saved);
      SetProc(s, p, x.(sw := Back)).(harts := s.harts[h := y])
    case Return(p) =>
      var s1 := if s.procs[p].state == Zombie && s.procs[p].parent == None then Release(s, h, p) else s;
      SetMode(Rel(s1, h, ProcLock(p)), h, Idle(p + 1))
  }

  // ---------------------------------------------------------------- traps and context switches

  datatype SwitchAct = Preempt | SwtchOut | Resume | Enter(to: Pc, fault: bool)

  predicate SwitchEnabled(s: State, h: nat, p: nat, a: SwitchAct) {
    && Exec(s, h, p)
    && var x := s.procs[p];
       match a
       case Preempt =>
         // a timer interrupt: always taken in user mode, otherwise only with interrupts on
         x.sw == On && (x.pc == Run || (s.harts[h].sie && x.state == Running)) && Avail(s, h, ProcLock(p))
       case SwtchOut => x.sw == Leaving
       case Resume => x.sw == Back
       case Enter(to, fault) => x.sw == On && x.pc == Run && EntryPoint(to, fault)
  }

  /** The thread goes on in forkret, sleep or yield; a zombie must not. */
  function Resumed(x: Proc): Proc {
    match x.pc
    case Born => x.(pc := Run, sw := On)
    case Asleep(r) => x.(pc := Relock(r), sw := On, chan := NoChan)
    case _ => x.(sw := On)
  }

  /** sleep() goes on with interrupts as unlock left them; the trap handlers return to what they interrupted. */
  function ResumedSie(x: Proc, sie: bool): bool {
    if x.pc.Asleep? then sie else x.pc != Born && x.pc != Run && x.base
  }

  function SwitchStep(s: State, h: nat, p: nat, a: SwitchAct): State
    requires SwitchEnabled(s, h, p, a)
  {
    var x := s.procs[p];
    match a
    case Preempt =>
      SetProc(Acq(SetSie(s, h, false), h, ProcLock(p)), p, x.(state := Ready, sw := Leaving))
    case SwtchOut =>
      var y := s.harts[h];
      var bad := !Holding(s, h, ProcLock(p)) || y.depth != 1 || x.state == Running || y.sie;
      SetMode(SetProc(s, p, x.(sw := Gone, saved := y.intena)), h, Returned(p)).(panicked := s.panicked || bad)
    case Resume =>
      var s1 := Rel(s, h, ProcLock(p));
      SetSie(SetProc(s1, p, Resumed(x)), h, ResumedSie(x, s1.harts[h].sie)).(panicked := s1.panicked || x.pc.Dead?)
    case Enter(to, fault) => SetSie(SetProc(s, p, x.(pc := to, base := !fault)), h, !fault)
  }

  // ---------------------------------------------------------------- fork(): making the child

  datatype MakeAct = ClaimSlot | AssignPid | BuildDone(kstack: bool, tf: bool, ok: bool) | DiscardChild

  predicate MakeEnabled(s: State, h: nat, p: nat, a: MakeAct) {
    && At(s, h, p)
    && var pc := s.procs[p].pc;
       match a
       case ClaimSlot => pc.Claim? && (pc.i < |s.procs| ==> Avail(s, h, ProcLock(pc.i)))
       case AssignPid => pc.TakePid? && pc.c < |s.procs|
       case BuildDone(k, t, ok) =>
         // kalloc can fail at any point: kernel stack, trapframe, then page table and copy
         pc.Build? && pc.c < |s.procs| && (t ==> k) && (ok ==> t)
       case DiscardChild => pc.Discard? && pc.c < |s.procs| && Avail(s, h, ProcLock(pc.c))
  }

  function MakeStep(s: State, h: nat, p: nat, a: MakeAct): State
    requires MakeEnabled(s, h, p, a)
  {
    var pc := s.procs[p].pc;
    match a
    case ClaimSlot =>
      if pc.i >= |s.procs| then Goto(s, p, Run)
      else
        var s1 := Crit(s, h, ProcLock(pc.i));
        if s.procs[pc.i].state == Unused then
          Goto(SetProc(s1, pc.i, s.procs[pc.i].(state := New, creator := p)), p, TakePid(pc.i))
        else Goto(s1, p, Claim(pc.i + 1))
    case AssignPid =>
      Goto(SetProc(s, pc.c, s.procs[pc.c].(pid := s.nextPid)), p, Build(pc.c)).(nextPid := s.nextPid + 1)
    case BuildDone(k, t, ok) =>
      Goto(SetProc(s, pc.c, s.procs[pc.c].(kstack := k, tf := t, pt := ok)), p,
           if ok then LinkLock(pc.c) else Discard(pc.c))
    case DiscardChild =>
      Goto(Rel(Release(Acq(s, h, ProcLock(pc.c)), h, pc.c), h, ProcLock(pc.c)), p, Run)
  }

  // ---------------------------------------------------------------- fork(): linking the child

  datatype LinkAct = LinkAcq | LinkChild | UnwaitRel

  predicate LinkEnabled(s: State, h: nat, p: nat, a: LinkAct) {
    && At(s, h, p)
    && var pc := s.procs[p].pc;
       match a
       case LinkAcq => pc.LinkLock? && Avail(s, h, WaitLock)
       case LinkChild => pc.Link? && pc.c < |s.procs| && Avail(s, h, ProcLock(pc.c))
       case UnwaitRel => pc.Unwait?
  }

  function LinkStep(s: State, h: nat, p: nat, a: LinkAct): State
    requires LinkEnabled(s, h, p, a)
  {
    var pc := s.procs[p].pc;
    match a
    case LinkAcq => Goto(Acq(s, h, WaitLock), p, Link(pc.c))
    case LinkChild =>
      Goto(SetProc(Crit(s, h, ProcLock(pc.c)), pc.c, s.procs[pc.c].(parent := Some(p), state := Ready)), p,
           Unwait(Some(s.procs[pc.c].pid)))
    case UnwaitRel => Goto(Rel(s, h, WaitLock), p, Run)
  }

  // ---------------------------------------------------------------- wait()

  datatype WaitAct = WaitAcq | ScanSlot(copyFails: bool) | ScanNone

  predicate WaitEnabled(s: State, h: nat, p: nat, a: WaitAct) {
    && At(s, h, p)
    && var pc := s.procs[p].pc;
       match a
       case WaitAcq => pc == WaitLk && Avail(s, h, WaitLock)
       case ScanSlot(copyFails) =>
         pc.Scan? && pc.i < |s.procs| && (s.procs[pc.i].parent == Some(p) ==> Avail(s, h, ProcLock(pc.i)))
       case ScanNone => pc == Scan(|s.procs|, false)
  }

  function WaitStep(s: State, h: nat, p: nat, a: WaitAct): State
    requires WaitEnabled(s, h, p, a)
  {
    var pc := s.procs[p].pc;
    match a
    case WaitAcq => Goto(Acq(s, h, WaitLock), p, Scan(0, false))
    case ScanSlot(copyFails) =>
      var q := pc.i;
      if s.procs[q].parent != Some(p) then Goto(s, p, Scan(q + 1, pc.have))
      else if s.procs[q].state == Zombie && !copyFails then
        Goto(Rel(Release(Acq(s, h, ProcLock(q)), h, q), h, ProcLock(q)), p, Unwait(Some(s.procs[q].pid)))
      else
        // no zombie, or copyout of its exit status failed
        Goto(Crit(s, h, ProcLock(q)), p, if s.procs[q].state == Zombie then Unwait(None) else Scan(q + 1, true))
    case ScanNone => Goto(s, p, Unwait(None))
  }

  // ---------------------------------------------------------------- sleep()

  datatype SleepAct = SleepAcq(r: Reason) | SleepRel | SleepMark | RelockAcq

  predicate SleepEnabled(s: State, h: nat, p: nat, a: SleepAct) {
    && At(s, h, p)
    && var pc := s.procs[p].pc;
       match a
       case SleepAcq(r) =>
         && Avail(s, h, ProcLock(p))
         && (match r
             case ForChild => pc == Scan(|s.procs|, true)
             case ForTicks(start, n) => pc == TickLoop(start, n) && Elapsed(s.ticks, start) < n)
       case SleepRel => pc.SleepBoth?
       case SleepMark => pc.SleepOwn?
       case RelockAcq => pc.Relock? && Avail(s, h, SleepLock(pc.r))
  }

  function SleepStep(s: State, h: nat, p: nat, a: SleepAct): State
    requires SleepEnabled(s, h, p, a)
  {
    var pc := s.procs[p].pc;
    match a
    case SleepAcq(r) => Goto(Acq(s, h, ProcLock(p)), p, SleepBoth(r))
    case SleepRel => Goto(Rel(s, h, SleepLock(pc.r)), p, SleepOwn(pc.r))
    case SleepMark =>
      SetProc(s, p, s.procs[p].(chan := ChanOf(p, pc.r), state := Waiting, pc := Asleep(pc.r), sw := Leaving))
    case RelockAcq =>
      Goto(Acq(s, h, SleepLock(pc.r)), p, if pc.r.ForChild? then Scan(0, false) else TickLoop(pc.r.start, pc.r.n))
  }

  // ---------------------------------------------------------------- kexit(): handing over the children

  datatype ExitAct = FreeSpace | ExitAcq | FindReaper(reaper: Option<nat>) | ReparentSlot | ReparentEnd

  /** The test of kernel/proc.c:463 for slot q, seen from the exiting process p. */
  predicate IsReaper(s: State, p: nat, q: nat)
    requires q < |s.procs|
  {
    s.procs[q].pid == 1 && q != p && s.procs[q].state != Zombie
  }

  predicate ExitEnabled(s: State, h: nat, p: nat, a: ExitAct) {
    && At(s, h, p)
    && var pc := s.procs[p].pc;
       match a
       case FreeSpace => pc == ExitFree
       case ExitAcq => pc == ExitLk && Avail(s, h, WaitLock)
       case FindReaper(reaper) =>
         && pc == FindInit
         && (match reaper
             case Some(q) => q < |s.procs| && IsReaper(s, p, q)
             case None => forall q :: 0 <= q < |s.procs| ==> !IsReaper(s, p, q))
       case ReparentSlot =>
         pc.Reparent? && pc.i < |s.procs| && (s.procs[pc.i].parent == Some(p) ==> Avail(s, h, ProcLock(pc.i)))
       case ReparentEnd => pc.Reparent? && pc.i == |s.procs|
  }

  function ExitStep(s: State, h: nat, p: nat, a: ExitAct): State
    requires ExitEnabled(s, h, p, a)
  {
    var pc := s.procs[p].pc;
    match a
    case FreeSpace =>
      SetProc(s, p, s.procs[p].(pc := ExitLk, pt := false)).(panicked := s.panicked || !s.procs[p].pt)
    case ExitAcq => Goto(Acq(s, h, WaitLock), p, FindInit)
    case FindReaper(reaper) => Goto(s, p, Reparent(0, reaper, false))
    case ReparentSlot =>
      var q := pc.i;
      var dead := s.procs[q].state == Zombie;
      if s.procs[q].parent != Some(p) then Goto(s, p, Reparent(q + 1, pc.reaper, pc.gave))
      else if dead && pc.reaper.None? then
        // the parent becomes NULL and the slot is released at once
        Goto(Rel(Release(Acq(s, h, ProcLock(q)), h, q), h, ProcLock(q)), p, Reparent(q + 1, None, pc.gave))
      else
        Goto(SetProc(Crit(s, h, ProcLock(q)), q, s.procs[q].(parent := pc.reaper)), p,
             Reparent(q + 1, pc.reaper, pc.gave || dead))
    case ReparentEnd => Goto(s, p, if pc.gave && pc.reaper.Some? then Wake(0, pc.reaper.value, false) else ToParent)
  }

  // ---------------------------------------------------------------- kexit(): wakeups and the end

  datatype DieAct = WakeSlot | WakeEnd | NotifyParent | MarkZombie | ExitRel

  predicate DieEnabled(s: State, h: nat, p: nat, a: DieAct) {
    && At(s, h, p)
    && var pc := s.procs[p].pc;
       match a
       case WakeSlot => pc.Wake? && pc.i < |s.procs| && Avail(s, h, ProcLock(pc.i))
       case WakeEnd => pc.Wake? && pc.i == |s.procs|
       case NotifyParent => pc == ToParent
       case MarkZombie => pc == Die && Avail(s, h, ProcLock(p))
       case ExitRel => pc == ExitBoth
  }

  function DieStep(s: State, h: nat, p: nat, a: DieAct): State
    requires DieEnabled(s, h, p, a)
  {
    var pc := s.procs[p].pc;
    match a
    case WakeSlot =>
      var s1 := Crit(s, h, ProcLock(pc.i));
      Goto(SetProc(s1, pc.i, Woken(s.procs[pc.i], OnProc(pc.target))), p, Wake(pc.i + 1, pc.target, pc.last))
    case WakeEnd => Goto(s, p, if pc.last then Die else ToParent)
    case NotifyParent =>
      Goto(s, p, match s.procs[p].parent case Some(q) => Wake(0, q, true) case None => Die)
    case MarkZombie =>
      SetProc(Acq(s, h, ProcLock(p)), p, s.procs[p].(state := Zombie, pc := ExitBoth))
    case ExitRel => SetProc(Rel(s, h, WaitLock), p, s.procs[p].(pc := Dead, sw := Leaving))
  }

  // ------------------------------------------- sys_sleep(), clockintr() and the leaf locks

  datatype TickAct =
    | TickAcq(p: nat) | TickReturn(p: nat) | TickFire | TickScan | TickEnd | LeafAcq(leaf: Leaf) | LeafRel

  predicate TickEnabled(s: State, h: nat, a: TickAct) {
    && h < |s.harts|
    && var x := s.harts[h];
       match a
       case TickAcq(p) => At(s, h, p) && s.procs[p].pc.TickLk? && Avail(s, h, TicksLock)
       case TickReturn(p) =>
         At(s, h, p) && s.procs[p].pc.TickLoop? && Elapsed(s.ticks, s.procs[p].pc.start) >= s.procs[p].pc.n
       case TickFire =>
         // hart 0 takes a timer interrupt and its handler gets tickslock
         h == 0 && x.clk.NoTick? && x.leaf.None? && Avail(s, h, TicksLock) && (x.sie || InUser(s, h))
       case TickScan => x.leaf.None? && x.clk.Tick? && x.clk.i < |s.procs| && Avail(s, h, ProcLock(x.clk.i))
       case TickEnd => x.leaf.None? && x.clk.Tick? && x.clk.i == |s.procs|
       case LeafAcq(k) => x.leaf.None? && Avail(s, h, LeafLock(k))
       case LeafRel => x.leaf.Some?
  }

  function TickStep(s: State, h: nat, a: TickAct): State
    requires TickEnabled(s, h, a)
  {
    match a
    case TickAcq(p) => Goto(Acq(s, h, TicksLock), p, TickLoop(s.ticks, s.procs[p].pc.n))
    case TickReturn(p) => Goto(Rel(s, h, TicksLock), p, Run)
    case TickFire =>
      var s1 := Acq(SetSie(s, h, false), h, TicksLock);
      s1.(ticks := s.ticks + 1, harts := s1.harts[h := s1.harts[h].(clk := Tick(0, s.harts[h].sie))])
    case TickScan =>
      var i := s.harts[h].clk.i;
      var s1 := Crit(s, h, ProcLock(i));
      SetProc(s1, i, Woken(s.procs[i], OnTicks)).(harts := s1.harts[h := s1.harts[h].(clk := Tick(i + 1,
                                                                                                  s.harts[h].clk.sie))])
    case TickEnd =>
      var s1 := Rel(s, h, TicksLock);
      s1.(harts := s1.harts[h := s1.harts[h].(clk := NoTick, sie := s.harts[h].clk.sie)])
    case LeafAcq(k) =>
      var s1 := Acq(s, h, LeafLock(k));
      s1.(harts := s1.harts[h := s1.harts[h].(leaf := Some(k))])
    case LeafRel =>
      var s1 := Rel(s, h, LeafLock(s.harts[h].leaf.value));
      s1.(harts := s1.harts[h := s1.harts[h].(leaf := None)])
  }

  // ---------------------------------------------------------------- all steps

  datatype Act =
    | OfSched(sched: SchedAct)
    | OfSwitch(p: nat, switch: SwitchAct)
    | OfMake(p: nat, make: MakeAct)
    | OfLink(p: nat, link: LinkAct)
    | OfWait(p: nat, wait: WaitAct)
    | OfSleep(p: nat, sleep: SleepAct)
    | OfExit(p: nat, exit: ExitAct)
    | OfDie(p: nat, die: DieAct)
    | OfTick(tick: TickAct)

  predicate Enabled(s: State, h: nat, a: Act) {
    match a
    case OfSched(x) => SchedEnabled(s, h, x)
    case OfSwitch(p, x) => SwitchEnabled(s, h, p, x)
    case OfMake(p, x) => MakeEnabled(s, h, p, x)
    case OfLink(p, x) => LinkEnabled(s, h, p, x)
    case OfWait(p, x) => WaitEnabled(s, h, p, x)
    case OfSleep(p, x) => SleepEnabled(s, h, p, x)
    case OfExit(p, x) => ExitEnabled(s, h, p, x)
    case OfDie(p, x) => DieEnabled(s, h, p, x)
    case OfTick(x) => TickEnabled(s, h, x)
  }

  function Step(s: State, h: nat, a: Act): State
    requires Enabled(s, h, a)
  {
    match a
    case OfSched(x) => SchedStep(s, h, x)
    case OfSwitch(p, x) => SwitchStep(s, h, p, x)
    case OfMake(p, x) => MakeStep(s, h, p, x)
    case OfLink(p, x) => LinkStep(s, h, p, x)
    case OfWait(p, x) => WaitStep(s, h, p, x)
    case OfSleep(p, x) => SleepStep(s, h, p, x)
    case OfExit(p, x) => ExitStep(s, h, p, x)
    case OfDie(p, x) => DieStep(s, h, p, x)
    case OfTick(x) => TickStep(s, h, x)
  }

  // ---------------------------------------------------------------- runs

  /** The state main() leaves behind (kernel/main.c): init is READY in some slot, all else is unused. */
  predicate Init(s: State) {
    && |s.procs| >= 1 && |s.harts| >= 1
    && s.procs[0] == UNUSED_PROC.(pid := 1, state := Ready, pt := true, kstack := true, tf := true)
    && (forall p :: 1 <= p < |s.procs| ==> s.procs[p] == UNUSED_PROC)
    && (forall h :: 0 <= h < |s.harts| ==> s.harts[h] == Hart(Idle(|s.procs|), NoTick, None, 0, false, s.harts[h].sie))
    && s.held == map[] && s.nextPid == 2 && s.log == [] && !s.panicked
  }

  /** `run` is a run: each state follows from the one before by some step of some hart. */
  ghost predicate IsRun(run: seq<State>) {
    && |run| >= 1 && Init(run[0])
    && forall i :: 0 <= i < |run| - 1 ==> Next(run[i], run[i + 1])
  }

  ghost predicate Next(s: State, t: State) {
    exists h: nat, a: Act :: Enabled(s, h, a) && t == Step(s, h, a)
  }
}

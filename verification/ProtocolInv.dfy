/** What every reachable state of the process protocol satisfies. */
module ProtocolInv {
  import opened Options
  import opened ProtocolState

  // ---------------------------------------------------------------- who holds what

  /** The code positions at which a process thread holds wait_lock, tickslock or its own lock. */
  predicate HoldsWait(x: Proc) {
    && x.sw == On
    && (x.pc.Link? || x.pc.Unwait? || x.pc.Scan? || x.pc == SleepBoth(ForChild) || x.pc.FindInit?
        || x.pc.Reparent? || x.pc.Wake? || x.pc.ToParent? || x.pc.Die? || x.pc.ExitBoth?)
  }

  predicate HoldsTicks(x: Proc) {
    x.sw == On && (x.pc.TickLoop? || (x.pc.SleepBoth? && x.pc.r.ForTicks?))
  }

  predicate HoldsOwn(x: Proc) {
    x.sw == Leaving || x.sw == Back || (x.sw == On && (x.pc.SleepBoth? || x.pc.SleepOwn? || x.pc.ExitBoth?))
  }

  /** The position of the code on hart h says that h holds lock l. */
  predicate MustHold(s: State, h: nat, l: LockId)
    requires h < |s.harts|
  {
    var x := s.harts[h];
    match l
    case WaitLock => x.mode.InProc? && x.mode.p < |s.procs| && HoldsWait(s.procs[x.mode.p])
    case TicksLock => x.clk.Tick? || (x.mode.InProc? && x.mode.p < |s.procs| && HoldsTicks(s.procs[x.mode.p]))
    case ProcLock(q) =>
      x.mode == Picked(q) || x.mode == Returned(q) || (x.mode == InProc(q) && q < |s.procs| && HoldsOwn(s.procs[q]))
    case LeafLock(k) => x.leaf == Some(k)
  }

  ghost predicate LockInv(s: State) {
    && (forall l :: l in s.held ==> s.held[l] < |s.harts|)
    && (forall h: nat, l :: h < |s.harts| ==> Holding(s, h, l) == MustHold(s, h, l))
  }

  function Bit(b: bool): nat {
    if b then 1 else 0
  }

  /** Locks held by the code under any interrupt handler. */
  function CodeDepth(s: State, h: nat): nat
    requires h < |s.harts|
  {
    match s.harts[h].mode
    case Open => 0
    case Idle(_) => 0
    case Picked(_) => 1
    case Returned(_) => 1
    case InProc(p) =>
      if p < |s.procs| then Bit(HoldsWait(s.procs[p])) + Bit(HoldsTicks(s.procs[p])) + Bit(HoldsOwn(s.procs[p])) else 0
  }

  // ---------------------------------------------------------------- harts

  predicate HartOk(s: State, h: nat)
    requires h < |s.harts|
  {
    var x := s.harts[h];
    && x.depth == CodeDepth(s, h) + Bit(x.clk.Tick?) + Bit(x.leaf.Some?)
    && (x.depth > 0 ==> !x.sie)
    && (x.clk.Tick? ==> h == 0 && x.clk.i <= |s.procs| && CodeDepth(s, h) == 0)
    && match x.mode
       case Open => true
       case Idle(i) => i <= |s.procs|
       case Picked(p) =>
         p < |s.procs| && s.procs[p].hart == h && s.procs[p].sw == Gone && s.procs[p].state == Running
       case InProc(p) =>
         p < |s.procs| && s.procs[p].hart == h && s.procs[p].sw != Gone
       case Returned(p) =>
         && p < |s.procs| && s.procs[p].hart == h && s.procs[p].sw == Gone
         && (s.procs[p].state == Ready || s.procs[p].state == Waiting || s.procs[p].state == Zombie)
  }

  // ---------------------------------------------------------------- processes

  /** The hart p last ran on still has c->proc == p. */
  predicate Current(s: State, p: nat)
    requires p < |s.procs|
  {
    && s.procs[p].hart < |s.harts|
    && var m := s.harts[s.procs[p].hart].mode;
       m == Picked(p) || m == InProc(p) || m == Returned(p)
  }

  predicate LockFree(pc: Pc) {
    pc.Run? || pc.Claim? || pc.TakePid? || pc.Build? || pc.Discard? || pc.LinkLock? || pc.WaitLk?
    || pc.Relock? || pc.ExitFree? || pc.ExitLk? || pc.TickLk?
  }

  predicate Exiting(pc: Pc) {
    pc.ExitLk? || pc.FindInit? || pc.Reparent? || pc.Wake? || pc.ToParent? || pc.Die? || pc.ExitBoth? || pc.Dead?
  }

  predicate Alive(st: PState) {
    st == Ready || st == Running || st == Waiting
  }

  /** Which process states go with which code position. */
  predicate StateOk(x: Proc) {
    match x.sw
    case On =>
      !x.pc.Asleep? && !x.pc.Dead? && !x.pc.Born? && x.state == if x.pc.ExitBoth? then Zombie else Running
    case Leaving =>
      if x.pc.Asleep? then x.state == Waiting
      else if x.pc.Dead? then x.state == Zombie
      else x.state == Ready && LockFree(x.pc)
    case Back => x.state == Running && (x.pc.Asleep? || x.pc.Born? || LockFree(x.pc))
    case Gone =>
      if x.pc.Asleep? then Alive(x.state)
      else if x.pc.Dead? then x.state == Zombie
      else (x.state == Ready || x.state == Running) && (x.pc.Born? || LockFree(x.pc))
  }

  /** Loop cursors and slot numbers in a code position are in range. */
  predicate PcOk(n: nat, pc: Pc) {
    && (pc.Claim? || pc.Scan? || pc.Reparent? || pc.Wake? ==> pc.i <= n)
    && (pc.TakePid? || pc.Build? || pc.Discard? || pc.LinkLock? || pc.Link? ==> pc.c < n)
    && (pc.Reparent? && pc.reaper.Some? ==> pc.reaper.value < n)
    && (pc.Wake? ==> pc.target < n)
  }

  predicate ProcOk(s: State, p: nat)
    requires p < |s.procs|
  {
    var x := s.procs[p];
    && x.chan == (if x.pc.Asleep? then ChanOf(p, x.pc.r) else NoChan)
    && match x.state
       case Unused => x == UNUSED_PROC.(hart := x.hart) && !Current(s, p)
       case New => x.pc.Born? && x.sw == Gone && x.parent.None? && !Current(s, p)
       case _ =>
         && x.kstack && x.tf && (x.pt <==> !Exiting(x.pc))
         && StateOk(x) && PcOk(|s.procs|, x.pc)
         && (!Current(s, p) ==> x.sw == Gone && x.state != Running)
  }

  predicate ProcsOk(s: State) {
    forall p :: 0 <= p < |s.procs| ==> ProcOk(s, p)
  }

  ghost predicate CoreInv(s: State) {
    && |s.procs| >= 1 && |s.harts| >= 1 && !s.panicked
    && (forall h :: 0 <= h < |s.harts| ==> HartOk(s, h))
    && ProcsOk(s)
    && LockInv(s)
  }

  // ---------------------------------------------------------------- fork and pids

  predicate Making(pc: Pc) {
    pc.TakePid? || pc.Build? || pc.Discard? || pc.LinkLock? || pc.Link?
  }

  /** A forking process owns the NEW slot it claimed, and knows how far the slot is built. */
  predicate MakeOk(s: State, p: nat)
    requires p < |s.procs|
  {
    var pc := s.procs[p].pc;
    Making(pc) ==>
      && pc.c < |s.procs|
      && var y := s.procs[pc.c];
         && y.state == New && y.creator == p
         && (if pc.TakePid? then y.pid == 0 else s.procs[p].pid < y.pid)
         && (pc.TakePid? || pc.Build? ==> !y.pt && !y.kstack && !y.tf)
         && (pc.LinkLock? || pc.Link? ==> y.pt && y.kstack && y.tf)
  }

  /** No NEW slot is forgotten: its creator is still at work on it. */
  predicate NewOk(s: State, c: nat)
    requires c < |s.procs|
  {
    var y := s.procs[c];
    y.state == New ==> y.creator < |s.procs| && Making(s.procs[y.creator].pc) && s.procs[y.creator].pc.c == c
  }

  predicate PidOk(s: State, p: nat)
    requires p < |s.procs|
  {
    var x := s.procs[p];
    && x.pid < s.nextPid
    && (Alive(x.state) || x.state == Zombie ==> x.pid >= 1)
    && (x.state == New ==> x.pid != 1)
    && x.pid !in s.log
  }

  ghost predicate ForkInv(s: State) {
    && s.nextPid >= 2
    && (forall p :: 0 <= p < |s.procs| ==> MakeOk(s, p) && NewOk(s, p) && PidOk(s, p))
    && (forall p, q :: 0 <= p < q < |s.procs| && s.procs[p].pid != 0 ==> s.procs[p].pid != s.procs[q].pid)
    && (forall i :: 0 <= i < |s.log| ==> 1 <= s.log[i] < s.nextPid)
    && (forall i, j :: 0 <= i < j < |s.log| ==> s.log[i] != s.log[j])
  }

  // ---------------------------------------------------------------- the process forest

  /** A parent is a live process, and an older one. */
  predicate ParentOk(s: State, q: nat)
    requires q < |s.procs|
  {
    match s.procs[q].parent
    case None => true
    case Some(p) => p < |s.procs| && Alive(s.procs[p].state) && s.procs[p].pid < s.procs[q].pid
  }

  /** How far an exiting process has handed over its children. */
  predicate ExitOk(s: State, p: nat)
    requires p < |s.procs|
  {
    var pc := s.procs[p].pc;
    && (pc.Reparent? ==>
          && (forall q :: 0 <= q < |s.procs| && q < pc.i ==> s.procs[q].parent != Some(p))
          && (pc.reaper.Some? ==>
                && pc.reaper.value < |s.procs| && pc.reaper.value != p
                && s.procs[pc.reaper.value].pid == 1 && Alive(s.procs[pc.reaper.value].state))
          && (pc.gave ==> pc.reaper.Some?))
    && (pc.Wake? || pc.ToParent? || pc.Die? ==> forall q :: 0 <= q < |s.procs| ==> s.procs[q].parent != Some(p))
    && (pc.Wake? && pc.last ==> s.procs[p].parent == Some(pc.target))
  }

  ghost predicate ForestInv(s: State) {
    forall q :: 0 <= q < |s.procs| ==> ParentOk(s, q) && ExitOk(s, q)
  }

  // ---------------------------------------------------------------- no lost exit

  /** x waits for a child: asleep on its own channel, or past the point where it let go of wait_lock. */
  predicate Awaits(x: Proc) {
    x.pc == SleepOwn(ForChild) || (x.pc == Asleep(ForChild) && x.state == Waiting)
  }

  predicate ZombieChild(s: State, p: nat, q: nat)
    requires q < |s.procs|
  {
    s.procs[q].parent == Some(p) && s.procs[q].state == Zombie
  }

  /** A process at pc is still going to wake p. */
  predicate Waking(pc: Pc, p: nat) {
    (pc.Reparent? && pc.gave && pc.reaper == Some(p)) || (pc.Wake? && pc.target == p && pc.i <= p)
  }

  predicate WillWake(s: State, p: nat) {
    exists m :: 0 <= m < |s.procs| && Waking(s.procs[m].pc, p)
  }

  /** What a process inside wait() or kexit() has established about its children or its parent. */
  predicate WatchOk(s: State, p: nat)
    requires p < |s.procs|
  {
    var pc := s.procs[p].pc;
    && (pc.Scan? ==> forall q :: 0 <= q < |s.procs| && q < pc.i ==> !ZombieChild(s, p, q))
    && (pc == SleepBoth(ForChild) ==> forall q :: 0 <= q < |s.procs| ==> !ZombieChild(s, p, q))
    && (pc.Wake? && pc.target < |s.procs| && pc.target < pc.i ==> !Awaits(s.procs[pc.target]))
    && (pc.Die? && s.procs[p].parent.Some? && s.procs[p].parent.value < |s.procs| ==>
          !Awaits(s.procs[s.procs[p].parent.value]))
  }

  /** A zombie child of a waiting process is about to be announced to it. */
  predicate NoticeOk(s: State, p: nat, q: nat)
    requires p < |s.procs| && q < |s.procs|
  {
    Awaits(s.procs[p]) && ZombieChild(s, p, q) ==> WillWake(s, p)
  }

  predicate LostInv(s: State) {
    && (forall p :: 0 <= p < |s.procs| ==> WatchOk(s, p))
    && (forall p, q :: 0 <= p < |s.procs| && 0 <= q < |s.procs| ==> NoticeOk(s, p, q))
  }

  // ---------------------------------------------------------------- ticks

  /** The tick sleep a thread is in, if any. */
  function TickReason(pc: Pc): Reason {
    if pc.TickLoop? then ForTicks(pc.start, pc.n)
    else if pc.SleepBoth? || pc.SleepOwn? || pc.Asleep? || pc.Relock? then pc.r
    else ForChild
  }

  /** The thread is committed to sleeping until somebody wakes it. */
  predicate Committed(x: Proc) {
    x.pc.SleepBoth? || x.pc.SleepOwn? || (x.pc.Asleep? && x.state == Waiting)
  }

  /** The handler of the latest tick has yet to reach slot p. */
  predicate TickPending(s: State, p: nat) {
    |s.harts| > 0 && s.harts[0].clk.Tick? && s.harts[0].clk.i <= p
  }

  predicate TickOk(s: State, p: nat)
    requires p < |s.procs|
  {
    var r := TickReason(s.procs[p].pc);
    r.ForTicks? ==>
      r.start <= s.ticks && (Committed(s.procs[p]) ==> Elapsed(s.ticks, r.start) < r.n || TickPending(s, p))
  }

  predicate TickInv(s: State) {
    forall p :: 0 <= p < |s.procs| ==> TickOk(s, p)
  }

  // ---------------------------------------------------------------- interrupt nesting

  /** The intena value that a thread inside sched() must find again. */
  function SavedIntena(x: Proc): bool {
    x.pc.Asleep? && x.base
  }

  predicate SavedOk(x: Proc) {
    Alive(x.state) && x.sw == Gone && !x.pc.Born? ==> x.saved == SavedIntena(x)
  }

  /** Kernel code of a process sees its own interrupt-enable state restored whenever it holds no
      lock, whichever hart it is on. */
  predicate IntrOk(s: State, h: nat)
    requires h < |s.harts|
  {
    var y := s.harts[h];
    y.mode.InProc? && y.mode.p < |s.procs| ==>
      var x := s.procs[y.mode.p];
      && (x.sw == On && x.pc != Run ==>
            if y.clk.Tick? then y.clk.sie == x.base
            else if y.depth > 0 then y.intena == x.base
            else y.sie == x.base)
      && ((x.sw == Leaving || x.sw == Back) && !x.pc.Dead? && !x.pc.Born? ==> y.intena == SavedIntena(x))
  }

  ghost predicate IntrInv(s: State) {
    && (forall h :: 0 <= h < |s.harts| ==> IntrOk(s, h))
    && (forall p :: 0 <= p < |s.procs| ==> SavedOk(s.procs[p]))
  }

  // ---------------------------------------------------------------- all of it

  ghost predicate Inv(s: State) {
    CoreInv(s) && ForkInv(s) && ForestInv(s) && LostInv(s) && TickInv(s) && IntrInv(s)
  }
}

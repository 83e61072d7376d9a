/** Lock order, absence of deadlock, and the bound on how often a READY process is passed over. */
module ProtocolProgress {
  import opened Options
  import opened ProtocolState
  import opened ProtocolInv
  import opened ProtocolTheorems

  // ---------------------------------------------------------------- lock order

  /** wait_lock and tickslock come first, then one process lock, then the leaf locks. */
  function Rank(l: LockId): nat {
    match l
    case WaitLock => 0
    case TicksLock => 0
    case ProcLock(_) => 1
    case LeafLock(_) => 2
  }

  /** The lock that a process thread at its current position must get before it can move. */
  function ThreadWants(s: State, p: nat): Option<LockId>
    requires p < |s.procs|
  {
    var x := s.procs[p];
    var n := |s.procs|;
    if x.sw != On then None
    else
      match x.pc
      case Claim(i) => if i < n then Some(ProcLock(i)) else None
      case Discard(c) => Some(ProcLock(c))
      case LinkLock(_) => Some(WaitLock)
      case Link(c) => Some(ProcLock(c))
      case WaitLk => Some(WaitLock)
      case Scan(i, have) =>
        if i < n then (if s.procs[i].parent == Some(p) then Some(ProcLock(i)) else None)
        else if have then Some(ProcLock(p)) else None
      case Relock(r) => Some(SleepLock(r))
      case ExitLk => Some(WaitLock)
      case Reparent(i, _, _) => if i < n && s.procs[i].parent == Some(p) then Some(ProcLock(i)) else None
      case Wake(i, _, _) => if i < n then Some(ProcLock(i)) else None
      case Die => Some(ProcLock(p))
      case TickLk(_) => Some(TicksLock)
      case TickLoop(start, m) => if Elapsed(s.ticks, start) < m then Some(ProcLock(p)) else None
      case _ => None
  }

  /** The lock that hart h spins on, if its next instruction is a lock(). */
  function Wants(s: State, h: nat): Option<LockId>
    requires h < |s.harts|
  {
    var y := s.harts[h];
    if y.leaf.Some? then None
    else if y.clk.Tick? then (if y.clk.i < |s.procs| then Some(ProcLock(y.clk.i)) else None)
    else
      match y.mode
      case Idle(i) => if i < |s.procs| then Some(ProcLock(i)) else None
      case InProc(p) => if p < |s.procs| then ThreadWants(s, p) else None
      case _ => None
  }

  /** Hart h may be spinning on l: by its own code, in the handler of a timer interrupt it has taken,
      or in the allocator, allocpid or printf. */
  predicate MayRequest(s: State, h: nat, l: LockId) {
    && h < |s.harts|
    && (|| Wants(s, h) == Some(l)
        || (l.LeafLock? && s.harts[h].leaf.None?)
        || (s.harts[h].clk.NoTick? && s.harts[h].leaf.None? && (s.harts[h].sie || InUser(s, h))
            && (l == TicksLock || (s.harts[h].mode.InProc? && l == ProcLock(s.harts[h].mode.p)))))
  }

  /** s with lock l free. */
  function Without(s: State, l: LockId): State {
    s.(held := s.held - {l})
  }

  lemma ExitRequests(s: State, h: nat, l: LockId, p: nat, a: ExitAct)
    requires !ExitEnabled(s, h, p, a) && ExitEnabled(Without(s, l), h, p, a)
    ensures MayRequest(s, h, l)
  {
    if a.FindReaper? {
      ReaperNeedsNoLock(s, h, l, p, a.reaper);
    }
  }

  lemma ReaperNeedsNoLock(s: State, h: nat, l: LockId, p: nat, reaper: Option<nat>)
    ensures ExitEnabled(s, h, p, FindReaper(reaper)) == ExitEnabled(Without(s, l), h, p, FindReaper(reaper))
  {
    var t := Without(s, l);
    assert forall q :: 0 <= q < |s.procs| ==> IsReaper(t, p, q) == IsReaper(s, p, q);
  }

  /** MayRequest covers every step: a step that lacks nothing but lock l is a request for l. */
  lemma EveryRequest(s: State, h: nat, l: LockId, a: Act)
    requires !Enabled(s, h, a) && Enabled(Without(s, l), h, a)
    ensures MayRequest(s, h, l)
  {
    match a
    case OfSched(x) => SchedRequests(s, h, l, x);
    case OfSwitch(p, x) => SwitchRequests(s, h, l, p, x);
    case OfMake(p, x) => MakeRequests(s, h, l, p, x);
    case OfLink(p, x) => LinkRequests(s, h, l, p, x);
    case OfWait(p, x) => WaitRequests(s, h, l, p, x);
    case OfSleep(p, x) => SleepRequests(s, h, l, p, x);
    case OfExit(p, x) => ExitRequests(s, h, l, p, x);
    case OfDie(p, x) => DieRequests(s, h, l, p, x);
    case OfTick(x) => TickRequests(s, h, l, x);
  }

  lemma SchedRequests(s: State, h: nat, l: LockId, a: SchedAct)
    requires !SchedEnabled(s, h, a) && SchedEnabled(Without(s, l), h, a)
    ensures MayRequest(s, h, l)
  {
  }

  lemma SwitchRequests(s: State, h: nat, l: LockId, p: nat, a: SwitchAct)
    requires !SwitchEnabled(s, h, p, a) && SwitchEnabled(Without(s, l), h, p, a)
    ensures MayRequest(s, h, l)
  {
  }

  lemma MakeRequests(s: State, h: nat, l: LockId, p: nat, a: MakeAct)
    requires !MakeEnabled(s, h, p, a) && MakeEnabled(Without(s, l), h, p, a)
    ensures MayRequest(s, h, l)
  {
  }

  lemma LinkRequests(s: State, h: nat, l: LockId, p: nat, a: LinkAct)
    requires !LinkEnabled(s, h, p, a) && LinkEnabled(Without(s, l), h, p, a)
    ensures MayRequest(s, h, l)
  {
  }

  lemma WaitRequests(s: State, h: nat, l: LockId, p: nat, a: WaitAct)
    requires !WaitEnabled(s, h, p, a) && WaitEnabled(Without(s, l), h, p, a)
    ensures MayRequest(s, h, l)
  {
  }

  lemma SleepRequests(s: State, h: nat, l: LockId, p: nat, a: SleepAct)
    requires !SleepEnabled(s, h, p, a) && SleepEnabled(Without(s, l), h, p, a)
    ensures MayRequest(s, h, l)
  {
  }

  lemma DieRequests(s: State, h: nat, l: LockId, p: nat, a: DieAct)
    requires !DieEnabled(s, h, p, a) && DieEnabled(Without(s, l), h, p, a)
    ensures MayRequest(s, h, l)
  {
  }

  lemma TickRequests(s: State, h: nat, l: LockId, a: TickAct)
    requires !TickEnabled(s, h, a) && TickEnabled(Without(s, l), h, a)
    ensures MayRequest(s, h, l)
  {
  }

  /** No hart ever holds two process locks. */
  lemma OneProcLock(run: seq<State>, i: nat, h: nat, p: nat, q: nat)
    requires IsRun(run) && i < |run| && h < |run[i].harts|
    requires Holding(run[i], h, ProcLock(p)) && Holding(run[i], h, ProcLock(q))
    ensures p == q
  {
    RunInv(run, i);
    assert Holding(run[i], h, ProcLock(p)) == MustHold(run[i], h, ProcLock(p));
    assert Holding(run[i], h, ProcLock(q)) == MustHold(run[i], h, ProcLock(q));
  }

  /** Every lock is requested in rank order. */
  lemma LockOrder(s: State, h: nat, l: LockId, m: LockId)
    requires Inv(s) && MayRequest(s, h, l) && Holding(s, h, m)
    ensures Rank(m) < Rank(l)
  {
    assert HartOk(s, h);
    assert Holding(s, h, m) == MustHold(s, h, m);
    if s.harts[h].mode.InProc? {
      assert ProcOk(s, s.harts[h].mode.p);
    }
  }

  /** Hart h waits for a lock that another hart holds. */
  predicate Stuck(s: State, h: nat, request: Option<LockId>) {
    request.Some? && request.value in s.held && s.held[request.value] != h
  }

  /** Whatever lock each hart is trying to take, some hart is not waiting for another: no deadlock. */
  lemma NoDeadlock(run: seq<State>, i: nat, request: seq<Option<LockId>>)
    requires IsRun(run) && i < |run| && |request| == |run[i].harts|
    requires forall h :: 0 <= h < |request| && request[h].Some? ==> MayRequest(run[i], h, request[h].value)
    ensures exists h :: 0 <= h < |request| && !Stuck(run[i], h, request[h])
  {
    var s := run[i];
    RunInv(run, i);
    if forall h :: 0 <= h < |request| ==> Stuck(s, h, request[h]) {
      var a := Holder(s, request, 0);
      var b := Holder(s, request, a);
      var _ := Holder(s, request, b);
      assert false;
    }
  }

  /** The hart that a stuck hart waits for is stuck on a lock of higher rank. */
  lemma Holder(s: State, request: seq<Option<LockId>>, h: nat) returns (k: nat)
    requires Inv(s) && |request| == |s.harts| && h < |request|
    requires forall j :: 0 <= j < |request| ==> Stuck(s, j, request[j]) && MayRequest(s, j, request[j].value)
    ensures k < |request| && request[h].Some? && request[k].Some? && Rank(request[h].value) < Rank(request[k].value)
  {
    assert Stuck(s, h, request[h]);
    k := s.held[request[h].value];
    assert Stuck(s, k, request[k]) && MayRequest(s, k, request[k].value);
    LockOrder(s, k, request[k].value, request[h].value);
  }

  /** The step that a hart takes next once the lock it wants is free. */
  function NextThreadAct(s: State, p: nat): Act
    requires p < |s.procs|
  {
    var x := s.procs[p];
    match x.sw
    case Leaving => OfSwitch(p, SwtchOut)
    case Back => OfSwitch(p, Resume)
    case Gone => OfSwitch(p, Resume)
    case On =>
      match x.pc
      case Claim(_) => OfMake(p, ClaimSlot)
      case TakePid(_) => OfMake(p, AssignPid)
      case Build(_) => OfMake(p, BuildDone(true, true, true))
      case Discard(_) => OfMake(p, DiscardChild)
      case LinkLock(_) => OfLink(p, LinkAcq)
      case Link(_) => OfLink(p, LinkChild)
      case Unwait(_) => OfLink(p, UnwaitRel)
      case WaitLk => OfWait(p, WaitAcq)
      case Scan(i, have) =>
        if i < |s.procs| then OfWait(p, ScanSlot(false))
        else if have then OfSleep(p, SleepAcq(ForChild)) else OfWait(p, ScanNone)
      case SleepBoth(_) => OfSleep(p, SleepRel)
      case SleepOwn(_) => OfSleep(p, SleepMark)
      case Relock(_) => OfSleep(p, RelockAcq)
      case ExitFree => OfExit(p, FreeSpace)
      case ExitLk => OfExit(p, ExitAcq)
      case Reparent(i, _, _) => OfExit(p, if i < |s.procs| then ReparentSlot else ReparentEnd)
      case Wake(i, _, _) => OfDie(p, if i < |s.procs| then WakeSlot else WakeEnd)
      case ToParent => OfDie(p, NotifyParent)
      case Die => OfDie(p, MarkZombie)
      case ExitBoth => OfDie(p, ExitRel)
      case TickLk(_) => OfTick(TickAcq(p))
      case TickLoop(start, m) =>
        if Elapsed(s.ticks, start) < m then OfSleep(p, SleepAcq(ForTicks(start, m))) else OfTick(TickReturn(p))
      case _ => OfSwitch(p, Enter(WaitLk, false))
  }

  lemma ThreadMoves(s: State, h: nat, p: nat)
    requires Inv(s) && Exec(s, h, p) && s.procs[p].pc != FindInit
    requires ThreadWants(s, p).Some? ==> Avail(s, h, ThreadWants(s, p).value)
    ensures Enabled(s, h, NextThreadAct(s, p))
  {
    assert HartOk(s, h) && ProcOk(s, p) && MakeOk(s, p);
  }

  /** a is the next step of the code that hart h executes: not an interrupt and not an optional visit to
      the allocator, allocpid or printf. */
  ghost predicate IsNextStep(s: State, h: nat, a: Act)
    requires h < |s.harts|
  {
    var y := s.harts[h];
    if y.leaf.Some? then a == OfTick(LeafRel)
    else if y.clk.Tick? then a == OfTick(if y.clk.i < |s.procs| then TickScan else TickEnd)
    else
      match y.mode
      case Open => a == OfSched(CloseIntr)
      case Idle(k) => a == OfSched(OpenIntr) || a == OfSched(Pick(k)) || a == OfSched(Skip(k))
      case Picked(p) => a == OfSched(SwtchIn(p))
      case Returned(p) => a == OfSched(Return(p))
      case InProc(p) =>
        p < |s.procs|
        && if s.procs[p].pc == FindInit then a.OfExit? && a.p == p && a.exit.FindReaper? else a == NextThreadAct(s, p)
  }

  /** A hart whose wanted lock is not held elsewhere can take the next step of its own code: it is never
      stuck for another reason. */
  lemma UnblockedMoves(run: seq<State>, i: nat, h: nat)
    requires IsRun(run) && i < |run| && h < |run[i].harts| && !Stuck(run[i], h, Wants(run[i], h))
    ensures exists a :: IsNextStep(run[i], h, a) && Enabled(run[i], h, a)
  {
    var s := run[i];
    RunInv(run, i);
    assert HartOk(s, h);
    var y := s.harts[h];
    if y.leaf.None? && y.clk.NoTick? && y.mode.InProc? {
      var p := y.mode.p;
      if s.procs[p].pc == FindInit {
        assert ProcOk(s, p);
        ReaperFound(s, h, p);
      } else {
        ThreadMoves(s, h, p);
        assert IsNextStep(s, h, NextThreadAct(s, p));
      }
    } else {
      HartMoves(s, h);
    }
  }

  /** Progress: in every state of every run some hart can take the next step of its own code. */
  lemma SomeHartMoves(run: seq<State>, i: nat)
    requires IsRun(run) && i < |run|
    ensures exists h: nat, a :: h < |run[i].harts| && IsNextStep(run[i], h, a) && Enabled(run[i], h, a)
  {
    var s := run[i];
    var request := Wanted(s, |s.harts|);
    NoDeadlock(run, i, request);
    var h: nat :| h < |request| && !Stuck(s, h, request[h]);
    UnblockedMoves(run, i, h);
  }

  /** The locks that the harts below n spin on. */
  function Wanted(s: State, n: nat): (r: seq<Option<LockId>>)
    requires n <= |s.harts|
    ensures |r| == n && forall h :: 0 <= h < n ==> r[h] == Wants(s, h)
  {
    if n == 0 then [] else Wanted(s, n - 1) + [Wants(s, n - 1)]
  }

  /** The scheduler, the tick handler and the leaf sections. */
  lemma HartMoves(s: State, h: nat)
    requires h < |s.harts| && HartOk(s, h) && !Stuck(s, h, Wants(s, h))
    requires var y := s.harts[h]; !(y.leaf.None? && y.clk.NoTick? && y.mode.InProc?)
    ensures exists a :: IsNextStep(s, h, a) && Enabled(s, h, a)
  {
    var y := s.harts[h];
    var a :=
      if y.leaf.Some? then OfTick(LeafRel)
      else if y.clk.Tick? then OfTick(if y.clk.i < |s.procs| then TickScan else TickEnd)
      else
        match y.mode
        case Open => OfSched(CloseIntr)
        case Idle(k) =>
          OfSched(if k == |s.procs| then OpenIntr else if s.procs[k].state == Ready then Pick(k) else Skip(k))
        case Picked(p) => OfSched(SwtchIn(p))
        case InProc(p) => OfSched(SwtchIn(p))
        case Returned(p) => OfSched(Return(p));
    assert IsNextStep(s, h, a) && Enabled(s, h, a);
  }

  lemma ReaperFound(s: State, h: nat, p: nat)
    requires At(s, h, p) && s.procs[p].pc == FindInit
    ensures exists a :: IsNextStep(s, h, a) && Enabled(s, h, a)
  {
    if q :| 0 <= q < |s.procs| && IsReaper(s, p, q) {
      var a := OfExit(p, FindReaper(Some(q)));
      assert IsNextStep(s, h, a) && Enabled(s, h, a);
    } else {
      var a := OfExit(p, FindReaper(None));
      assert IsNextStep(s, h, a) && Enabled(s, h, a);
    }
  }

  // ---------------------------------------------------------------- bounded bypass

  /** The slot that the scheduler of hart h tries next. */
  function Cursor(s: State, h: nat): nat
    requires h < |s.harts|
  {
    match s.harts[h].mode
    case Open => 0
    case Idle(i) => i
    case Picked(p) => p + 1
    case InProc(p) => p + 1
    case Returned(p) => p + 1
  }

  /** How many slots hart h still tries before slot p. */
  function Distance(s: State, h: nat, p: nat): int
    requires h < |s.harts|
  {
    var c := Cursor(s, h);
    if c <= p then p - c else |s.procs| - c + p
  }

  predicate Picks(a: Act) {
    a.OfSched? && a.sched.Pick?
  }

  /** A run with the hart and the step taken at each point. */
  ghost predicate IsTrace(states: seq<State>, steps: seq<(nat, Act)>) {
    && |states| == |steps| + 1
    && forall i :: 0 <= i < |steps| ==>
         Enabled(states[i], steps[i].0, steps[i].1) && states[i + 1] == Step(states[i], steps[i].0, steps[i].1)
  }

  /** How many dispatches hart h starts. */
  function Dispatches(steps: seq<(nat, Act)>, h: nat): nat {
    if steps == [] then 0
    else Dispatches(steps[..|steps| - 1], h) + Bit(steps[|steps| - 1].0 == h && Picks(steps[|steps| - 1].1))
  }

  lemma DistanceSched(s: State, h: nat, a: SchedAct, p: nat)
    requires Inv(s) && SchedEnabled(s, h, a) && p < |s.procs|
    requires s.procs[p].state == Ready && SchedStep(s, h, a).procs[p].state == Ready
    ensures Distance(SchedStep(s, h, a), h, p) + Bit(a.Pick?) <= Distance(s, h, p)
  {
    assert HartOk(s, h);
  }

  /** Outside the scheduler, a hart stays with its process or has just switched back from it. */
  predicate ModeKept(m: Mode, m': Mode) {
    m' == m || (m.InProc? && m' == Returned(m.p))
  }

  /** A step leaves the other harts alone and, unless it is a scheduler step, its own cursor. */
  predicate CursorKept(s: State, t: State, h: nat, k: nat, own: bool)
    requires h < |s.harts| && k < |s.harts|
  {
    && |t.procs| == |s.procs| && |t.harts| == |s.harts|
    && (k != h ==> t.harts[k] == s.harts[k])
    && (own ==> ModeKept(s.harts[h].mode, t.harts[h].mode))
  }

  lemma CursorSched(s: State, h: nat, a: SchedAct, k: nat)
    requires SchedEnabled(s, h, a) && k < |s.harts|
    ensures CursorKept(s, SchedStep(s, h, a), h, k, false)
  {
  }

  lemma CursorSwitch(s: State, h: nat, p: nat, a: SwitchAct, k: nat)
    requires SwitchEnabled(s, h, p, a) && k < |s.harts|
    ensures CursorKept(s, SwitchStep(s, h, p, a), h, k, true)
  {
  }

  lemma CursorMake(s: State, h: nat, p: nat, a: MakeAct, k: nat)
    requires MakeEnabled(s, h, p, a) && k < |s.harts|
    ensures CursorKept(s, MakeStep(s, h, p, a), h, k, true)
  {
  }

  lemma CursorLink(s: State, h: nat, p: nat, a: LinkAct, k: nat)
    requires LinkEnabled(s, h, p, a) && k < |s.harts|
    ensures CursorKept(s, LinkStep(s, h, p, a), h, k, true)
  {
  }

  lemma CursorWait(s: State, h: nat, p: nat, a: WaitAct, k: nat)
    requires WaitEnabled(s, h, p, a) && k < |s.harts|
    ensures CursorKept(s, WaitStep(s, h, p, a), h, k, true)
  {
  }

  lemma CursorSleep(s: State, h: nat, p: nat, a: SleepAct, k: nat)
    requires SleepEnabled(s, h, p, a) && k < |s.harts|
    ensures CursorKept(s, SleepStep(s, h, p, a), h, k, true)
  {
  }

  lemma CursorExit(s: State, h: nat, p: nat, a: ExitAct, k: nat)
    requires ExitEnabled(s, h, p, a) && k < |s.harts|
    ensures CursorKept(s, ExitStep(s, h, p, a), h, k, true)
  {
  }

  lemma CursorDie(s: State, h: nat, p: nat, a: DieAct, k: nat)
    requires DieEnabled(s, h, p, a) && k < |s.harts|
    ensures CursorKept(s, DieStep(s, h, p, a), h, k, true)
  {
  }

  lemma CursorTick(s: State, h: nat, a: TickAct, k: nat)
    requires TickEnabled(s, h, a) && k < |s.harts|
    ensures CursorKept(s, TickStep(s, h, a), h, k, true)
  {
  }

  lemma CursorStep(s: State, h: nat, a: Act, k: nat)
    requires Enabled(s, h, a) && h < |s.harts| && k < |s.harts|
    ensures CursorKept(s, Step(s, h, a), h, k, !a.OfSched?)
  {
    match a
    case OfSched(x) => CursorSched(s, h, x, k);
    case OfSwitch(p, x) => CursorSwitch(s, h, p, x, k);
    case OfMake(p, x) => CursorMake(s, h, p, x, k);
    case OfLink(p, x) => CursorLink(s, h, p, x, k);
    case OfWait(p, x) => CursorWait(s, h, p, x, k);
    case OfSleep(p, x) => CursorSleep(s, h, p, x, k);
    case OfExit(p, x) => CursorExit(s, h, p, x, k);
    case OfDie(p, x) => CursorDie(s, h, p, x, k);
    case OfTick(x) => CursorTick(s, h, x, k);
  }

  lemma DistanceStep(s: State, h: nat, a: Act, k: nat, p: nat)
    requires Inv(s) && Enabled(s, h, a) && k < |s.harts| && p < |s.procs|
    requires s.procs[p].state == Ready && |Step(s, h, a).procs| == |s.procs| && Step(s, h, a).procs[p].state == Ready
    ensures |Step(s, h, a).harts| == |s.harts|
    ensures Distance(Step(s, h, a), k, p) + Bit(k == h && Picks(a)) <= Distance(s, k, p)
  {
    if k == h && a.OfSched? {
      DistanceSched(s, h, a.sched, p);
    } else {
      CursorStep(s, h, a, k);
      SameCursor(s, Step(s, h, a), h, k, !a.OfSched?);
    }
  }

  lemma SameCursor(s: State, t: State, h: nat, k: nat, own: bool)
    requires h < |s.harts| && k < |s.harts| && CursorKept(s, t, h, k, own) && (k == h ==> own)
    ensures Cursor(t, k) == Cursor(s, k)
  {
  }

  lemma DistanceRange(s: State, h: nat, p: nat)
    requires Inv(s) && h < |s.harts| && p < |s.procs|
    ensures 0 <= Distance(s, h, p) <= |s.procs| - 1
  {
    assert HartOk(s, h);
  }

  /** p is READY in every state of the trace. */
  predicate AlwaysReady(states: seq<State>, p: nat) {
    forall i :: 0 <= i < |states| ==> p < |states[i].procs| && states[i].procs[p].state == Ready
  }

  ghost predicate Potential(s: State, t: State, h: nat, p: nat, dispatches: nat) {
    && Inv(s) && Inv(t) && |t.harts| == |s.harts| && |t.procs| == |s.procs| && h < |s.harts|
    && dispatches + Distance(t, h, p) <= Distance(s, h, p)
  }

  lemma PotentialStep(s0: State, s: State, h: nat, p: nat, d: nat, k: nat, a: Act)
    requires Potential(s0, s, h, p, d) && Enabled(s, k, a) && p < |s.procs| == |Step(s, k, a).procs|
    requires s.procs[p].state == Ready && Step(s, k, a).procs[p].state == Ready
    ensures Potential(s0, Step(s, k, a), h, p, d + Bit(k == h && Picks(a)))
  {
    StepInv(s, k, a);
    DistanceStep(s, k, a, h, p);
  }

  lemma EnabledHart(s: State, h: nat, a: Act)
    requires Enabled(s, h, a)
    ensures h < |s.harts|
    ensures |Step(s, h, a).procs| == |s.procs| && |Step(s, h, a).harts| == |s.harts|
  {
    assert h < |s.harts|;
    CursorStep(s, h, a, h);
  }

  /** While p stays READY, hart h moves its cursor towards p with every dispatch of another slot. */
  lemma {:induction false} BypassPotential(states: seq<State>, steps: seq<(nat, Act)>, h: nat, p: nat)
    requires IsTrace(states, steps) && Inv(states[0]) && AlwaysReady(states, p) && h < |states[0].harts|
    ensures Potential(states[0], states[|steps|], h, p, Dispatches(steps, h))
  {
    var n := |steps|;
    if n > 0 {
      assert IsTrace(states[..n], steps[..n - 1]);
      BypassPotential(states[..n], steps[..n - 1], h, p);
      var k, a := steps[n - 1].0, steps[n - 1].1;
      assert states[n - 1 + 1] == Step(states[n - 1], k, a);
      EnabledHart(states[n - 1], k, a);
      PotentialStep(states[0], states[n - 1], h, p, Dispatches(steps[..n - 1], h), k, a);
    }
  }

  /** Dispatches started by any hart. */
  function AllDispatches(steps: seq<(nat, Act)>): nat {
    if steps == [] then 0
    else AllDispatches(steps[..|steps| - 1]) + Bit(Picks(steps[|steps| - 1].1))
  }

  function DispatchesBelow(steps: seq<(nat, Act)>, n: nat): nat {
    if n == 0 then 0 else DispatchesBelow(steps, n - 1) + Dispatches(steps, n - 1)
  }

  lemma {:induction false} SumOneStep(steps: seq<(nat, Act)>, n: nat)
    requires steps != []
    ensures var last := steps[|steps| - 1];
            DispatchesBelow(steps, n) == DispatchesBelow(steps[..|steps| - 1], n) + Bit(last.0 < n && Picks(last.1))
  {
    var k: nat := steps[|steps| - 1].0;
    if n > 0 {
      SumOneStep(steps, n - 1);
    }
  }

  lemma {:induction false} EmptySum(n: nat)
    ensures DispatchesBelow([], n) == 0
  {
    if n > 0 {
      EmptySum(n - 1);
    }
  }

  lemma {:induction false} AllIsSum(steps: seq<(nat, Act)>, n: nat)
    requires forall i :: 0 <= i < |steps| ==> steps[i].0 < n
    ensures AllDispatches(steps) == DispatchesBelow(steps, n)
  {
    if steps == [] {
      EmptySum(n);
    } else {
      AllIsSum(steps[..|steps| - 1], n);
      SumOneStep(steps, n);
    }
  }

  /** While p is READY, each hart starts at most NPROC-1 dispatches of other slots. */
  lemma BypassPerHart(run: seq<State>, j: nat, states: seq<State>, steps: seq<(nat, Act)>, h: nat, p: nat)
    requires IsRun(run) && j < |run| && IsTrace(states, steps) && states[0] == run[j]
    requires AlwaysReady(states, p) && h < |states[0].harts|
    ensures Dispatches(steps, h) <= |states[0].procs| - 1
  {
    RunInv(run, j);
    BypassPotential(states, steps, h, p);
    DistanceRange(states[0], h, p);
    DistanceRange(states[|steps|], h, p);
  }

  lemma {:induction false} SumBound(steps: seq<(nat, Act)>, n: nat, m: nat)
    requires forall h :: 0 <= h < n ==> Dispatches(steps, h) <= m
    ensures DispatchesBelow(steps, n) <= n * m
  {
    if n > 0 {
      SumBound(steps, n - 1, m);
      assert (n - 1) * m + m == n * m;
    }
  }

  lemma {:induction false} HartsInRange(states: seq<State>, steps: seq<(nat, Act)>, i: nat)
    requires IsTrace(states, steps) && i < |steps|
    ensures steps[i].0 < |states[0].harts| && |states[i + 1].harts| == |states[0].harts|
  {
    if i > 0 {
      HartsInRange(states, steps, i - 1);
    }
    EnabledHart(states[i], steps[i].0, steps[i].1);
  }

  lemma EveryHartBounded(run: seq<State>, j: nat, states: seq<State>, steps: seq<(nat, Act)>, p: nat, n: nat, m: nat)
    requires IsRun(run) && j < |run| && IsTrace(states, steps) && states[0] == run[j] && AlwaysReady(states, p)
    requires n == |states[0].harts| && m == |states[0].procs| - 1
    ensures forall h :: 0 <= h < n ==> Dispatches(steps, h) <= m
  {
    forall h | 0 <= h < n
      ensures Dispatches(steps, h) <= m
    {
      BypassPerHart(run, j, states, steps, h, p);
    }
  }

  lemma AllBounded(steps: seq<(nat, Act)>, n: nat, m: nat)
    requires forall i :: 0 <= i < |steps| ==> steps[i].0 < n
    requires forall h :: 0 <= h < n ==> Dispatches(steps, h) <= m
    ensures AllDispatches(steps) <= n * m
  {
    AllIsSum(steps, n);
    SumBound(steps, n, m);
  }

  /** Bounded bypass: a process that is READY sees at most NCPU * (NPROC - 1) dispatches before its own. */
  lemma BoundedBypass(run: seq<State>, j: nat, states: seq<State>, steps: seq<(nat, Act)>, p: nat, ncpu: nat,
                      others: nat)
    requires IsRun(run) && j < |run| && IsTrace(states, steps) && states[0] == run[j] && AlwaysReady(states, p)
    requires ncpu == |states[0].harts| && others == |states[0].procs| - 1
    ensures AllDispatches(steps) <= ncpu * others
  {
    AllHartsInRange(states, steps, ncpu);
    EveryHartBounded(run, j, states, steps, p, ncpu, others);
    AllBounded(steps, ncpu, others);
  }

  lemma AllHartsInRange(states: seq<State>, steps: seq<(nat, Act)>, n: nat)
    requires IsTrace(states, steps) && n == |states[0].harts|
    ensures forall i :: 0 <= i < |steps| ==> steps[i].0 < n
  {
    forall i | 0 <= i < |steps|
      ensures steps[i].0 < n
    {
      HartsInRange(states, steps, i);
    }
  }
}

/** What the invariant means for the kernel: safety over every run of the process protocol. */
module ProtocolSafety {
  import opened Options
  import opened ProtocolState
  import opened ProtocolInv
  import opened ProtocolCore
  import opened ProtocolForest
  import opened ProtocolTheorems

  // ---------------------------------------------------------------- panics and exits

  /** No panic of lock, unlock, pop_off, sched, releaseproc or kexit is ever reached. */
  lemma NoPanic(run: seq<State>, i: nat)
    requires IsRun(run) && i < |run|
    ensures !run[i].panicked
  {
    RunInv(run, i);
  }

  /** Whenever wait_lock is free, a process asleep in wait() has no zombie child. */
  lemma NoLostExit(run: seq<State>, i: nat, p: nat, q: nat)
    requires IsRun(run) && i < |run|
    requires var s := run[i];
             p < |s.procs| && q < |s.procs| && WaitLock !in s.held
             && s.procs[p].state == Waiting && s.procs[p].chan == OnProc(p)
                              && s.procs[q].parent == Some(p)
    ensures run[i].procs[q].state != Zombie
  {
    var s := run[i];
    RunInv(run, i);
    assert ProcOk(s, p) && NoticeOk(s, p, q);
    if s.procs[q].state == Zombie {
      assert ZombieChild(s, p, q);
      var m :| 0 <= m < |s.procs| && Waking(s.procs[m].pc, p);
      assert ProcOk(s, m);
      WaiterHart(s, m);
      assert false;
    }
  }

  // ---------------------------------------------------------------- the process forest

  /** Every parent pointer leads to a live process with a smaller pid. */
  lemma ParentsAreLive(run: seq<State>, i: nat, q: nat)
    requires IsRun(run) && i < |run| && q < |run[i].procs| && run[i].procs[q].parent.Some?
    ensures var s := run[i];
            var p := s.procs[q].parent.value;
            && p < |s.procs| && Alive(s.procs[p].state) && s.procs[p].pid < s.procs[q].pid
            && (Alive(s.procs[q].state) || s.procs[q].state == Zombie)
  {
    RunInv(run, i);
    assert ParentOk(run[i], q) && ProcOk(run[i], q);
  }

  /** `path` follows parent pointers. */
  predicate ParentPath(s: State, path: seq<nat>) {
    && (forall k :: 0 <= k < |path| ==> path[k] < |s.procs|)
    && (forall k :: 0 <= k < |path| - 1 ==> s.procs[path[k]].parent == Some(path[k + 1]))
  }

  /** Pids fall strictly along parent pointers, so no process is its own ancestor. */
  lemma {:induction false} ForestAcyclic(run: seq<State>, i: nat, path: seq<nat>, a: nat, b: nat)
    requires IsRun(run) && i < |run| && ParentPath(run[i], path) && a < b < |path|
    ensures run[i].procs[path[b]].pid < run[i].procs[path[a]].pid
    ensures path[a] != path[b]
  {
    RunInv(run, i);
    assert ParentOk(run[i], path[b - 1]);
    assert run[i].procs[path[b - 1]].parent == Some(path[b - 1 + 1]);
    if a < b - 1 {
      ForestAcyclic(run, i, path, a, b - 1);
    }
  }

  // ---------------------------------------------------------------- reaping

  /** The slot that a step releases. */
  function Victim(s: State, h: nat, a: Act): Option<nat>
    requires Enabled(s, h, a)
  {
    match a
    case OfSched(Return(p)) => if s.procs[p].state == Zombie && s.procs[p].parent == None then Some(p) else None
    case OfMake(p, DiscardChild) => Some(s.procs[p].pc.c)
    case OfWait(p, ScanSlot(false)) =>
      var q := s.procs[p].pc.i;
      if s.procs[q].parent == Some(p) && s.procs[q].state == Zombie then Some(q) else None
    case OfExit(p, ReparentSlot) =>
      var pc := s.procs[p].pc;
      if s.procs[pc.i].parent == Some(p) && s.procs[pc.i].state == Zombie && pc.reaper.None? then Some(pc.i) else None
    case _ => None
  }

  /** A slot is only released when no hart is on its kernel stack: it never ran, or it is a zombie
      whose context has been switched away and whose address space is already gone. */
  lemma ReleaseIsSafe(s: State, h: nat, a: Act)
    requires Inv(s) && Enabled(s, h, a) && Victim(s, h, a).Some?
    ensures var q := Victim(s, h, a).value;
            && q < |s.procs|
            && (forall k :: 0 <= k < |s.harts| ==> s.harts[k].mode != InProc(q) && s.harts[k].mode != Picked(q))
            && s.procs[q].sw == Gone
            && (if s.procs[q].state == Zombie then !s.procs[q].pt && s.procs[q].kstack && s.procs[q].tf
                else s.procs[q].state == New)
  {
    var q := Victim(s, h, a).value;
    VictimOff(s, h, a);
    assert ProcOk(s, q);
    forall k | 0 <= k < |s.harts|
      ensures s.harts[k].mode != InProc(q) && s.harts[k].mode != Picked(q)
    {
      assert HartOk(s, k);
    }
  }

  lemma VictimOff(s: State, h: nat, a: Act)
    requires Inv(s) && Enabled(s, h, a) && Victim(s, h, a).Some?
    ensures var q := Victim(s, h, a).value;
            q < |s.procs| && s.procs[q].sw == Gone
            && (s.procs[q].state == Zombie || s.procs[q].state == New)
  {
    var q := Victim(s, h, a).value;
    assert ProcOk(s, q) && HartOk(s, h);
    match a
    case OfSched(Return(p)) =>
    case OfMake(p, DiscardChild) => assert MakeOk(s, p);
    case OfWait(p, ScanSlot(false)) => Free(s, h, ProcLock(q)); Unlocked(s, q);
    case OfExit(p, ReparentSlot) => Free(s, h, ProcLock(q)); Unlocked(s, q);
  }

  /** A step appends to the release log exactly the pid of the slot it releases. */
  lemma LogStep(s: State, h: nat, a: Act)
    requires Enabled(s, h, a)
    ensures var v := Victim(s, h, a);
            if v.None? then Step(s, h, a).log == s.log
            else v.value < |s.procs| && Step(s, h, a).log == s.log + [s.procs[v.value].pid]
  {
  }

  /** The slot that gets its pid in a step. */
  function Named(s: State, h: nat, a: Act): Option<nat>
    requires Enabled(s, h, a)
  {
    match a
    case OfMake(p, AssignPid) => Some(s.procs[p].pc.c)
    case _ => None
  }

  lemma PidSched(s: State, h: nat, a: SchedAct, q: nat)
    requires SchedEnabled(s, h, a) && q < |s.procs| && Victim(s, h, OfSched(a)) != Some(q)
    ensures |SchedStep(s, h, a).procs| == |s.procs| && SchedStep(s, h, a).procs[q].pid == s.procs[q].pid
  {
  }

  lemma PidSwitch(s: State, h: nat, p: nat, a: SwitchAct, q: nat)
    requires SwitchEnabled(s, h, p, a) && q < |s.procs|
    ensures |SwitchStep(s, h, p, a).procs| == |s.procs| && SwitchStep(s, h, p, a).procs[q].pid == s.procs[q].pid
  {
  }

  lemma PidMake(s: State, h: nat, p: nat, a: MakeAct, q: nat)
    requires MakeEnabled(s, h, p, a) && q < |s.procs| && Victim(s, h, OfMake(p, a)) != Some(q)
    requires Named(s, h, OfMake(p, a)) != Some(q)
    ensures |MakeStep(s, h, p, a).procs| == |s.procs| && MakeStep(s, h, p, a).procs[q].pid == s.procs[q].pid
  {
  }

  lemma PidLink(s: State, h: nat, p: nat, a: LinkAct, q: nat)
    requires LinkEnabled(s, h, p, a) && q < |s.procs|
    ensures |LinkStep(s, h, p, a).procs| == |s.procs| && LinkStep(s, h, p, a).procs[q].pid == s.procs[q].pid
  {
  }

  lemma PidWait(s: State, h: nat, p: nat, a: WaitAct, q: nat)
    requires WaitEnabled(s, h, p, a) && q < |s.procs| && Victim(s, h, OfWait(p, a)) != Some(q)
    ensures |WaitStep(s, h, p, a).procs| == |s.procs| && WaitStep(s, h, p, a).procs[q].pid == s.procs[q].pid
  {
  }

  lemma PidSleep(s: State, h: nat, p: nat, a: SleepAct, q: nat)
    requires SleepEnabled(s, h, p, a) && q < |s.procs|
    ensures |SleepStep(s, h, p, a).procs| == |s.procs| && SleepStep(s, h, p, a).procs[q].pid == s.procs[q].pid
  {
  }

  lemma PidExit(s: State, h: nat, p: nat, a: ExitAct, q: nat)
    requires ExitEnabled(s, h, p, a) && q < |s.procs| && Victim(s, h, OfExit(p, a)) != Some(q)
    ensures |ExitStep(s, h, p, a).procs| == |s.procs| && ExitStep(s, h, p, a).procs[q].pid == s.procs[q].pid
  {
  }

  lemma PidDie(s: State, h: nat, p: nat, a: DieAct, q: nat)
    requires DieEnabled(s, h, p, a) && q < |s.procs|
    ensures |DieStep(s, h, p, a).procs| == |s.procs| && DieStep(s, h, p, a).procs[q].pid == s.procs[q].pid
  {
  }

  lemma PidTick(s: State, h: nat, a: TickAct, q: nat)
    requires TickEnabled(s, h, a) && q < |s.procs|
    ensures |TickStep(s, h, a).procs| == |s.procs| && TickStep(s, h, a).procs[q].pid == s.procs[q].pid
  {
  }

  /** Pids only change where a slot is released or named. */
  lemma PidStep(s: State, h: nat, a: Act, q: nat)
    requires Enabled(s, h, a) && q < |s.procs| && Victim(s, h, a) != Some(q) && Named(s, h, a) != Some(q)
    ensures |Step(s, h, a).procs| == |s.procs| && Step(s, h, a).procs[q].pid == s.procs[q].pid
  {
    match a
    case OfSched(x) => PidSched(s, h, x, q);
    case OfSwitch(p, x) => PidSwitch(s, h, p, x, q);
    case OfMake(p, x) => PidMake(s, h, p, x, q);
    case OfLink(p, x) => PidLink(s, h, p, x, q);
    case OfWait(p, x) => PidWait(s, h, p, x, q);
    case OfSleep(p, x) => PidSleep(s, h, p, x, q);
    case OfExit(p, x) => PidExit(s, h, p, x, q);
    case OfDie(p, x) => PidDie(s, h, p, x, q);
    case OfTick(x) => PidTick(s, h, x, q);
  }

  lemma NextPidStep(s: State, h: nat, a: Act)
    requires Enabled(s, h, a)
    ensures var c := Named(s, h, a);
            if c.None? then Step(s, h, a).nextPid == s.nextPid
            else c.value < |s.procs| && Step(s, h, a).nextPid == s.nextPid + 1 && |Step(s, h, a).procs| == |s.procs|
                 && Step(s, h, a).procs[c.value].pid == s.nextPid
  {
  }

  ghost predicate InTable(s: State, k: nat) {
    exists p :: 0 <= p < |s.procs| && s.procs[p].pid == k
  }

  lemma PidsStep(s: State, h: nat, a: Act, k: nat)
    requires Inv(s) && Enabled(s, h, a) && 1 <= k < Step(s, h, a).nextPid
    requires k < s.nextPid ==> k in s.log || InTable(s, k)
    ensures k in Step(s, h, a).log || InTable(Step(s, h, a), k)
  {
    var t := Step(s, h, a);
    LogStep(s, h, a);
    NextPidStep(s, h, a);
    if k < s.nextPid && k !in s.log {
      var p :| 0 <= p < |s.procs| && s.procs[p].pid == k;
      if Victim(s, h, a) == Some(p) {
        assert t.log[|s.log|] == k;
      } else {
        if Named(s, h, a) == Some(p) {
          NamedHadNoPid(s, h, a);
        }
        PidStep(s, h, a, p);
        assert t.procs[p].pid == k;
      }
    }
  }

  lemma NamedHadNoPid(s: State, h: nat, a: Act)
    requires Inv(s) && Enabled(s, h, a) && Named(s, h, a).Some?
    ensures Named(s, h, a).value < |s.procs| && s.procs[Named(s, h, a).value].pid == 0
  {
    assert MakeOk(s, a.p);
  }

  /** Every pid ever handed out is in the process table or in the release log: none is lost. */
  lemma {:induction false} PidsConserved(run: seq<State>, i: nat, k: nat)
    requires IsRun(run) && i < |run| && 1 <= k < run[i].nextPid
    ensures k in run[i].log || InTable(run[i], k)
  {
    if i == 0 {
      assert run[0].procs[0].pid == k;
    } else {
      RunInv(run, i - 1);
      assert Next(run[i - 1], run[i - 1 + 1]);
      var h: nat, a: Act :| Enabled(run[i - 1], h, a) && run[i] == Step(run[i - 1], h, a);
      if k < run[i - 1].nextPid {
        PidsConserved(run, i - 1, k);
      }
      PidsStep(run[i - 1], h, a, k);
    }
  }

  /** No pid is ever released twice, by whichever of wait(), kexit(), the scheduler or a failed
      fork, and a released pid never comes back to the process table. */
  lemma ReleasedOnce(run: seq<State>, i: nat)
    requires IsRun(run) && i < |run|
    ensures forall a, b :: 0 <= a < b < |run[i].log| ==> run[i].log[a] != run[i].log[b]
    ensures forall p, a :: 0 <= p < |run[i].procs| && 0 <= a < |run[i].log| ==> run[i].procs[p].pid != run[i].log[a]
  {
    RunInv(run, i);
    var s := run[i];
    forall p, a | 0 <= p < |s.procs| && 0 <= a < |s.log|
      ensures s.procs[p].pid != s.log[a]
    {
      assert PidOk(s, p) && s.log[a] in s.log;
    }
  }

  lemma RunNext(run: seq<State>, i: nat, j: nat)
    requires IsRun(run) && i + 1 == j < |run|
    ensures Next(run[i], run[j])
  {
  }

  lemma PrefixTrans(a: seq<nat>, b: seq<nat>, c: seq<nat>)
    requires a <= b <= c
    ensures a <= c
  {
  }

  lemma LogNext(s: State, t: State)
    requires Next(s, t)
    ensures s.log <= t.log
  {
    var h: nat, a: Act :| Enabled(s, h, a) && t == Step(s, h, a);
    LogStep(s, h, a);
  }

  /** The log of a later state extends the log of an earlier one: a release is for good. */
  lemma {:induction false} LogGrows(run: seq<State>, i: nat, j: nat)
    requires IsRun(run) && i <= j < |run|
    ensures run[i].log <= run[j].log
  {
    if i < j {
      var k := j - 1;
      LogGrows(run, i, k);
      RunNext(run, k, j);
      LogNext(run[k], run[j]);
      PrefixTrans(run[i].log, run[k].log, run[j].log);
    }
  }

  // ---------------------------------------------------------------- running

  /** c->proc of hart h is p. */
  predicate CpuProc(s: State, h: nat, p: nat) {
    h < |s.harts| && (s.harts[h].mode == Picked(p) || s.harts[h].mode == InProc(p) || s.harts[h].mode == Returned(p))
  }

  /** Two harts never have the same c->proc. */
  lemma OneHart(run: seq<State>, i: nat, p: nat, h: nat, k: nat)
    requires IsRun(run) && i < |run| && CpuProc(run[i], h, p) && CpuProc(run[i], k, p)
    ensures h == k
  {
    RunInv(run, i);
    assert HartOk(run[i], h) && HartOk(run[i], k);
  }

  /** Whenever p->lock is free, p is RUNNING exactly when some hart has c->proc == p. */
  lemma RunningIffOnHart(run: seq<State>, i: nat, p: nat)
    requires IsRun(run) && i < |run| && p < |run[i].procs| && ProcLock(p) !in run[i].held
    ensures run[i].procs[p].state == Running <==> exists h: nat :: CpuProc(run[i], h, p)
  {
    var s := run[i];
    RunInv(run, i);
    Unlocked(s, p);
    if s.procs[p].state == Running {
      assert Current(s, p);
      assert CpuProc(s, s.procs[p].hart, p);
    }
    if h: nat :| CpuProc(s, h, p) {
      assert HartOk(s, h);
      assert Current(s, p);
    }
  }

  /** A hart loads p's context only after the previous switch has saved it, and no other hart is on p. */
  lemma DispatchAfterSave(run: seq<State>, i: nat, h: nat, p: nat)
    requires IsRun(run) && i < |run| && SchedEnabled(run[i], h, SwtchIn(p))
    ensures run[i].procs[p].sw == Gone && Holding(run[i], h, ProcLock(p))
    ensures forall k: nat :: CpuProc(run[i], k, p) ==> k == h
  {
    var s := run[i];
    RunInv(run, i);
    assert HartOk(s, h);
    assert Holding(s, h, ProcLock(p)) == MustHold(s, h, ProcLock(p));
    forall k: nat | CpuProc(s, k, p)
      ensures k == h
    {
      OneHart(run, i, p, k, h);
    }
  }

  // ---------------------------------------------------------------- interrupts

  /** Interrupts are off on a hart that holds a lock, and kernel code of a process that holds none
      finds its own interrupt-enable state again, also after moving to another hart. */
  lemma InterruptNesting(run: seq<State>, i: nat, h: nat)
    requires IsRun(run) && i < |run| && h < |run[i].harts|
    ensures run[i].harts[h].depth > 0 ==> !run[i].harts[h].sie
    ensures forall l :: Holding(run[i], h, l) ==> run[i].harts[h].depth > 0
    ensures forall p: nat :: At(run[i], h, p) && run[i].procs[p].pc != Run && run[i].harts[h].depth == 0 ==>
                          run[i].harts[h].sie == run[i].procs[p].base
  {
    var s := run[i];
    RunInv(run, i);
    assert HartOk(s, h) && IntrOk(s, h);
    forall l | Holding(s, h, l)
      ensures s.harts[h].depth > 0
    {
      assert Holding(s, h, l) == MustHold(s, h, l);
    }
  }

  // ---------------------------------------------------------------- sys_sleep

  /** Wrapped elapsed time never exceeds true elapsed time. */
  lemma ElapsedAtMostTrue(ticks: nat, start: nat)
    requires start <= ticks
    ensures Elapsed(ticks, start) <= ticks - start
    ensures ticks - start < WRAP ==> Elapsed(ticks, start) == ticks - start
  {
    var d := ticks - start;
    assert (ticks % WRAP - start % WRAP) % WRAP == d % WRAP;
  }

  /** sys_sleep(n) returns only after at least n ticks, across wraparound of the 32-bit counter. */
  lemma SleepsLongEnough(run: seq<State>, i: nat, h: nat, p: nat)
    requires IsRun(run) && i < |run| && TickEnabled(run[i], h, TickReturn(p))
    ensures run[i].ticks >= run[i].procs[p].pc.start + run[i].procs[p].pc.n
  {
    RunInv(run, i);
    assert TickOk(run[i], p);
    ElapsedAtMostTrue(run[i].ticks, run[i].procs[p].pc.start);
  }

  /** Whenever tickslock is free, a process WAITING on &ticks has not yet slept long enough. */
  lemma SleeperNotForgotten(run: seq<State>, i: nat, p: nat)
    requires IsRun(run) && i < |run| && p < |run[i].procs| && TicksLock !in run[i].held
    requires run[i].procs[p].state == Waiting && run[i].procs[p].chan == OnTicks
    ensures var pc := run[i].procs[p].pc;
            pc.Asleep? && pc.r.ForTicks? && pc.r.start <= run[i].ticks && Elapsed(run[i].ticks, pc.r.start) < pc.r.n
  {
    var s := run[i];
    RunInv(run, i);
    assert ProcOk(s, p) && TickOk(s, p);
    assert Holding(s, 0, TicksLock) == MustHold(s, 0, TicksLock);
  }
}

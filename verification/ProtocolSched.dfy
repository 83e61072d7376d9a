/** The scheduler goes around: what each hart does between two processes, and how a process gets on and off a hart. */
module ProtocolSched {
  import opened ProtocolState
  import opened ProtocolInv
  import opened ProtocolCore
  import opened ProtocolTheorems
  import opened ProtocolProgress

  // ---------------------------------------------------------------- a pass over the table

  /** The scheduler looks at a slot, or lets interrupts in between two passes. */
  predicate Visit(a: Act) {
    a.OfSched? && (a.sched.Skip? || a.sched.Pick? || a.sched.OpenIntr? || a.sched.CloseIntr?)
  }

  /** The visits of hart h. */
  function Visits(steps: seq<(nat, Act)>, h: nat): nat {
    if steps == [] then 0
    else Visits(steps[..|steps| - 1], h) + Bit(steps[|steps| - 1].0 == h && Visit(steps[|steps| - 1].1))
  }

  /** How many visits hart h makes before it is slot p's turn. */
  function Turn(s: State, h: nat, p: nat): int
    requires h < |s.harts|
  {
    var c := Cursor(s, h);
    if s.harts[h].mode.Open? then p + 1
    else if c <= p then p - c
    else |s.procs| - c + p + 2
  }

  lemma TurnSched(s: State, h: nat, a: SchedAct, p: nat)
    requires Inv(s) && SchedEnabled(s, h, a) && p < |s.procs|
    requires s.procs[p].state == Ready && SchedStep(s, h, a).procs[p].state == Ready
    ensures |SchedStep(s, h, a).harts| == |s.harts| && |SchedStep(s, h, a).procs| == |s.procs|
    ensures Turn(SchedStep(s, h, a), h, p) + Bit(Visit(OfSched(a))) == Turn(s, h, p)
  {
    assert HartOk(s, h);
  }

  lemma TurnSame(s: State, t: State, h: nat, k: nat, own: bool, p: nat)
    requires h < |s.harts| && k < |s.harts| && CursorKept(s, t, h, k, own) && (k == h ==> own)
    ensures Turn(t, k, p) == Turn(s, k, p)
  {
    SameCursor(s, t, h, k, own);
  }

  /** While p is READY, every visit of a hart brings p's turn nearer by one, and nothing else changes it. */
  lemma TurnStep(s: State, h: nat, a: Act, k: nat, p: nat)
    requires Inv(s) && Enabled(s, h, a) && k < |s.harts| && p < |s.procs|
    requires s.procs[p].state == Ready && |Step(s, h, a).procs| == |s.procs| && Step(s, h, a).procs[p].state == Ready
    ensures |Step(s, h, a).harts| == |s.harts|
    ensures Turn(Step(s, h, a), k, p) + Bit(k == h && Visit(a)) == Turn(s, k, p)
  {
    EnabledHart(s, h, a);
    if k == h && a.OfSched? {
      TurnSched(s, h, a.sched, p);
    } else {
      CursorStep(s, h, a, k);
      TurnSame(s, Step(s, h, a), h, k, !a.OfSched?, p);
    }
  }

  lemma TurnRange(s: State, h: nat, p: nat)
    requires Inv(s) && h < |s.harts| && p < |s.procs|
    ensures 0 <= Turn(s, h, p) <= |s.procs| + 1
  {
    assert HartOk(s, h);
  }

  ghost predicate TurnIs(s: State, t: State, h: nat, p: nat, visits: nat) {
    && Inv(t) && |t.harts| == |s.harts| && |t.procs| == |s.procs| && h < |s.harts|
    && Turn(t, h, p) + visits == Turn(s, h, p)
  }

  lemma TurnNext(s0: State, s: State, h: nat, p: nat, d: nat, k: nat, a: Act)
    requires TurnIs(s0, s, h, p, d) && Enabled(s, k, a) && p < |s.procs| == |Step(s, k, a).procs|
    requires s.procs[p].state == Ready && Step(s, k, a).procs[p].state == Ready
    ensures TurnIs(s0, Step(s, k, a), h, p, d + Bit(k == h && Visit(a)))
  {
    StepInv(s, k, a);
    TurnStep(s, k, a, h, p);
  }

  lemma {:induction false} TurnAfter(states: seq<State>, steps: seq<(nat, Act)>, h: nat, p: nat)
    requires IsTrace(states, steps) && Inv(states[0]) && AlwaysReady(states, p) && h < |states[0].harts|
    ensures TurnIs(states[0], states[|steps|], h, p, Visits(steps, h))
  {
    var n := |steps|;
    if n > 0 {
      assert IsTrace(states[..n], steps[..n - 1]);
      TurnAfter(states[..n], steps[..n - 1], h, p);
      var k, a := steps[n - 1].0, steps[n - 1].1;
      assert states[n - 1 + 1] == Step(states[n - 1], k, a);
      EnabledHart(states[n - 1], k, a);
      TurnNext(states[0], states[n - 1], h, p, Visits(steps[..n - 1], h), k, a);
    }
  }

  /** The scheduler comes round: while p is READY, each hart makes at most NPROC + 1 visits, so after at most that many
      a hart that keeps scheduling dispatches p or finds it dispatched. */
  lemma ComesRound(run: seq<State>, j: nat, states: seq<State>, steps: seq<(nat, Act)>, h: nat, p: nat)
    requires IsRun(run) && j < |run| && IsTrace(states, steps) && states[0] == run[j]
    requires AlwaysReady(states, p) && h < |states[0].harts|
    ensures Visits(steps, h) <= |states[0].procs| + 1
  {
    RunInv(run, j);
    TurnAfter(states, steps, h, p);
    TurnRange(states[0], h, p);
    TurnRange(states[|steps|], h, p);
  }

  // ---------------------------------------------------------------- on and off a hart

  /** Where a dispatched thread goes on: in user mode if it is new, in sleep() if it slept, else where it was. */
  function GoesOn(pc: Pc): Pc {
    match pc
    case Born => Run
    case Asleep(r) => Relock(r)
    case _ => pc
  }

  /** A dispatch runs: a hart that finds slot p READY under its lock has, three steps later, p executing on it where it
      left off, with the lock free again. */
  lemma DispatchRuns(s: State, h: nat, p: nat)
    requires Inv(s) && SchedEnabled(s, h, Pick(p))
    ensures var s1 := SchedStep(s, h, Pick(p));
            && SchedEnabled(s1, h, SwtchIn(p))
            && var s2 := SchedStep(s1, h, SwtchIn(p));
               && SwitchEnabled(s2, h, p, Resume)
               && var s3 := SwitchStep(s2, h, p, Resume);
                  && At(s3, h, p) && s3.procs[p].state == Running && s3.procs[p].pc == GoesOn(s.procs[p].pc)
                  && s3.procs[p].chan == NoChan && ProcLock(p) !in s3.held
  {
    assert HartOk(s, h);
    Free(s, h, ProcLock(p));
    Unlocked(s, p);
    PickIs(s, h, p);
    SwtchInRuns(SchedStep(s, h, Pick(p)), h, p, s.procs[p].pc);
  }

  lemma PickIs(s: State, h: nat, p: nat)
    requires SchedEnabled(s, h, Pick(p)) && ProcOk(s, p) && !Current(s, p)
    ensures var s1 := SchedStep(s, h, Pick(p));
            && SchedEnabled(s1, h, SwtchIn(p)) && s1.procs[p].state == Running && s1.procs[p].pc == s.procs[p].pc
            && s1.procs[p].chan == s.procs[p].chan && (s.procs[p].pc.Asleep? || s.procs[p].chan == NoChan)
  {
  }

  lemma SwtchInRuns(s: State, h: nat, p: nat, pc: Pc)
    requires SchedEnabled(s, h, SwtchIn(p)) && s.procs[p].state == Running && s.procs[p].pc == pc
    requires pc.Asleep? || s.procs[p].chan == NoChan
    ensures var s2 := SchedStep(s, h, SwtchIn(p));
            && SwitchEnabled(s2, h, p, Resume)
            && var s3 := SwitchStep(s2, h, p, Resume);
               && At(s3, h, p) && s3.procs[p].state == Running && s3.procs[p].pc == GoesOn(pc)
               && s3.procs[p].chan == NoChan && ProcLock(p) !in s3.held
  {
  }

  /** A thread that gives up its hart inside sched() is off it two steps later: the hart is back in its scheduler at the
      next slot, the lock is free, and the slot is as the thread left it, unless it was an orphaned zombie,
      which is gone. */
  lemma LeavesHart(s: State, h: nat, p: nat)
    requires Inv(s) && SwitchEnabled(s, h, p, SwtchOut)
    ensures var s1 := SwitchStep(s, h, p, SwtchOut);
            && SchedEnabled(s1, h, Return(p))
            && var s2 := SchedStep(s1, h, Return(p));
               && s2.harts[h].mode == Idle(p + 1) && ProcLock(p) !in s2.held
               && (if s.procs[p].state == Zombie && s.procs[p].parent.None?
                   then s2.procs[p].state == Unused && s2.log == s.log + [s.procs[p].pid]
                   else s2.procs[p] == s.procs[p].(sw := Gone, saved := s.harts[h].intena) && s2.log == s.log)
  {
    assert HartOk(s, h) && ProcOk(s, p);
  }

  /** A timer interrupt takes a running process off its hart: three steps later it is READY, where it was, and the hart
      is in its scheduler at the next slot. */
  lemma PreemptYields(s: State, h: nat, p: nat)
    requires Inv(s) && SwitchEnabled(s, h, p, Preempt)
    ensures var s1 := SwitchStep(s, h, p, Preempt);
            && SwitchEnabled(s1, h, p, SwtchOut)
            && var s2 := SwitchStep(s1, h, p, SwtchOut);
               && SchedEnabled(s2, h, Return(p))
               && var s3 := SchedStep(s2, h, Return(p));
                  && s3.harts[h].mode == Idle(p + 1) && ProcLock(p) !in s3.held
                  && s3.procs[p].state == Ready && s3.procs[p].pc == s.procs[p].pc
  {
    StepInv(s, h, OfSwitch(p, Preempt));
    LeavesHart(SwitchStep(s, h, p, Preempt), h, p);
  }

  // ---------------------------------------------------------------- ticks

  /** The tick interrupts among the steps. */
  function TicksTaken(steps: seq<(nat, Act)>): nat {
    if steps == [] then 0 else TicksTaken(steps[..|steps| - 1]) + Bit(steps[|steps| - 1].1 == OfTick(TickFire))
  }

  lemma TickCounts(s: State, h: nat, a: Act)
    requires Enabled(s, h, a)
    ensures Step(s, h, a).ticks == s.ticks + Bit(a == OfTick(TickFire))
  {
    match a
    case OfMake(p, x) => MakeNoTick(s, h, p, x);
    case OfWait(p, x) => WaitNoTick(s, h, p, x);
    case OfExit(p, x) => ExitNoTick(s, h, p, x);
    case OfSwitch(p, x) => SwitchNoTick(s, h, p, x);
    case _ =>
  }

  lemma MakeNoTick(s: State, h: nat, p: nat, a: MakeAct)
    requires MakeEnabled(s, h, p, a)
    ensures MakeStep(s, h, p, a).ticks == s.ticks
  {
  }

  lemma WaitNoTick(s: State, h: nat, p: nat, a: WaitAct)
    requires WaitEnabled(s, h, p, a)
    ensures WaitStep(s, h, p, a).ticks == s.ticks
  {
  }

  lemma ExitNoTick(s: State, h: nat, p: nat, a: ExitAct)
    requires ExitEnabled(s, h, p, a)
    ensures ExitStep(s, h, p, a).ticks == s.ticks
  {
  }

  lemma SwitchNoTick(s: State, h: nat, p: nat, a: SwitchAct)
    requires SwitchEnabled(s, h, p, a)
    ensures SwitchStep(s, h, p, a).ticks == s.ticks
  {
  }

  /** ticks counts the timer interrupts that hart 0 takes, and nothing else. */
  lemma {:induction false} TicksCount(states: seq<State>, steps: seq<(nat, Act)>)
    requires IsTrace(states, steps)
    ensures states[|steps|].ticks == states[0].ticks + TicksTaken(steps)
  {
    var n := |steps|;
    if n > 0 {
      assert IsTrace(states[..n], steps[..n - 1]);
      TicksCount(states[..n], steps[..n - 1]);
      assert states[n - 1 + 1] == Step(states[n - 1], steps[n - 1].0, steps[n - 1].1);
      TickCounts(states[n - 1], steps[n - 1].0, steps[n - 1].1);
    }
  }
}

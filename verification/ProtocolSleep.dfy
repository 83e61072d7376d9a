/** sys_sleep over whole runs: from the call to the return. */
module ProtocolSleep {
  import opened Options
  import opened ProtocolState
  import opened ProtocolInv
  import opened ProtocolCore
  import opened ProtocolTheorems
  import opened ProtocolSafety
  import opened ProtocolProgress

  /** A thread inside sys_sleep(n): about to take tickslock, or counting from a tick not before t0. */
  predicate Sleeping(pc: Pc, n: nat, t0: nat) {
    || pc == TickLk(n)
    || (TickReason(pc).ForTicks? && TickReason(pc).n == n && t0 <= TickReason(pc).start)
  }

  lemma SchedSleeping(s: State, h: nat, a: SchedAct, q: nat, n: nat, t0: nat)
    requires SchedEnabled(s, h, a) && q < |s.procs| && Victim(s, h, OfSched(a)) != Some(q)
    requires Sleeping(s.procs[q].pc, n, t0)
    ensures |SchedStep(s, h, a).procs| == |s.procs| && Sleeping(SchedStep(s, h, a).procs[q].pc, n, t0)
    ensures SchedStep(s, h, a).ticks == s.ticks
  {
  }

  lemma SwitchSleeping(s: State, h: nat, p: nat, a: SwitchAct, q: nat, n: nat, t0: nat)
    requires SwitchEnabled(s, h, p, a) && q < |s.procs| && Sleeping(s.procs[q].pc, n, t0)
    ensures |SwitchStep(s, h, p, a).procs| == |s.procs| && Sleeping(SwitchStep(s, h, p, a).procs[q].pc, n, t0)
    ensures SwitchStep(s, h, p, a).ticks == s.ticks
  {
    if a == Resume {
      ResumeSleeping(s, h, p, q, n, t0);
    }
  }

  lemma ResumeSleeping(s: State, h: nat, p: nat, q: nat, n: nat, t0: nat)
    requires SwitchEnabled(s, h, p, Resume) && q < |s.procs| && Sleeping(s.procs[q].pc, n, t0)
    ensures |SwitchStep(s, h, p, Resume).procs| == |s.procs| && SwitchStep(s, h, p, Resume).ticks == s.ticks
    ensures Sleeping(SwitchStep(s, h, p, Resume).procs[q].pc, n, t0)
  {
    ResumeChanges(s, h, p);
    ResumedSleeping(s.procs[p], n, t0);
  }

  lemma ResumedSleeping(x: Proc, n: nat, t0: nat)
    ensures Sleeping(x.pc, n, t0) ==> Sleeping(Resumed(x).pc, n, t0)
  {
  }

  lemma MakeSleeping(s: State, h: nat, p: nat, a: MakeAct, q: nat, n: nat, t0: nat)
    requires MakeEnabled(s, h, p, a) && q < |s.procs| && Victim(s, h, OfMake(p, a)) != Some(q)
    requires Sleeping(s.procs[q].pc, n, t0)
    ensures |MakeStep(s, h, p, a).procs| == |s.procs| && Sleeping(MakeStep(s, h, p, a).procs[q].pc, n, t0)
    ensures MakeStep(s, h, p, a).ticks == s.ticks
  {
    if a == DiscardChild {
      DiscardSleeping(s, h, p, q, n, t0);
    }
  }

  lemma DiscardSleeping(s: State, h: nat, p: nat, q: nat, n: nat, t0: nat)
    requires MakeEnabled(s, h, p, DiscardChild) && q < |s.procs| && s.procs[p].pc.c != q
    requires Sleeping(s.procs[q].pc, n, t0)
    ensures var t := MakeStep(s, h, p, DiscardChild);
            |t.procs| == |s.procs| && Sleeping(t.procs[q].pc, n, t0) && t.ticks == s.ticks
  {
  }

  lemma LinkSleeping(s: State, h: nat, p: nat, a: LinkAct, q: nat, n: nat, t0: nat)
    requires LinkEnabled(s, h, p, a) && q < |s.procs| && Sleeping(s.procs[q].pc, n, t0)
    ensures |LinkStep(s, h, p, a).procs| == |s.procs| && Sleeping(LinkStep(s, h, p, a).procs[q].pc, n, t0)
    ensures LinkStep(s, h, p, a).ticks == s.ticks
  {
  }

  lemma WaitSleeping(s: State, h: nat, p: nat, a: WaitAct, q: nat, n: nat, t0: nat)
    requires WaitEnabled(s, h, p, a) && q < |s.procs| && Victim(s, h, OfWait(p, a)) != Some(q)
    requires Sleeping(s.procs[q].pc, n, t0)
    ensures |WaitStep(s, h, p, a).procs| == |s.procs| && Sleeping(WaitStep(s, h, p, a).procs[q].pc, n, t0)
    ensures WaitStep(s, h, p, a).ticks == s.ticks
  {
  }

  lemma SleepSleeping(s: State, h: nat, p: nat, a: SleepAct, q: nat, n: nat, t0: nat)
    requires SleepEnabled(s, h, p, a) && q < |s.procs| && Sleeping(s.procs[q].pc, n, t0)
    ensures |SleepStep(s, h, p, a).procs| == |s.procs| && Sleeping(SleepStep(s, h, p, a).procs[q].pc, n, t0)
    ensures SleepStep(s, h, p, a).ticks == s.ticks
  {
  }

  lemma ExitSleeping(s: State, h: nat, p: nat, a: ExitAct, q: nat, n: nat, t0: nat)
    requires ExitEnabled(s, h, p, a) && q < |s.procs| && Victim(s, h, OfExit(p, a)) != Some(q)
    requires Sleeping(s.procs[q].pc, n, t0)
    ensures |ExitStep(s, h, p, a).procs| == |s.procs| && Sleeping(ExitStep(s, h, p, a).procs[q].pc, n, t0)
    ensures ExitStep(s, h, p, a).ticks == s.ticks
  {
  }

  lemma DieSleeping(s: State, h: nat, p: nat, a: DieAct, q: nat, n: nat, t0: nat)
    requires DieEnabled(s, h, p, a) && q < |s.procs| && Sleeping(s.procs[q].pc, n, t0)
    ensures |DieStep(s, h, p, a).procs| == |s.procs| && Sleeping(DieStep(s, h, p, a).procs[q].pc, n, t0)
    ensures DieStep(s, h, p, a).ticks == s.ticks
  {
  }

  lemma TickSleeping(s: State, h: nat, a: TickAct, q: nat, n: nat, t0: nat)
    requires TickEnabled(s, h, a) && q < |s.procs| && a != TickReturn(q) && Sleeping(s.procs[q].pc, n, t0)
    requires t0 <= s.ticks
    ensures |TickStep(s, h, a).procs| == |s.procs| && Sleeping(TickStep(s, h, a).procs[q].pc, n, t0)
    ensures TickStep(s, h, a).ticks >= s.ticks
  {
  }

  /** A slot that is released has exited or was never run. */
  lemma VictimIdle(s: State, h: nat, a: Act)
    requires Inv(s) && Enabled(s, h, a) && Victim(s, h, a).Some?
    ensures var q := Victim(s, h, a).value; q < |s.procs| && (s.procs[q].pc.Dead? || s.procs[q].pc.Born?)
  {
    ReleaseIsSafe(s, h, a);
    assert ProcOk(s, Victim(s, h, a).value);
  }

  /** Only its own return ends a thread's sys_sleep, whatever the harts do. */
  lemma StillSleeping(s: State, h: nat, a: Act, q: nat, n: nat, t0: nat)
    requires Inv(s) && Enabled(s, h, a) && q < |s.procs| && a != OfTick(TickReturn(q))
    requires Sleeping(s.procs[q].pc, n, t0) && t0 <= s.ticks
    ensures |Step(s, h, a).procs| == |s.procs| && Sleeping(Step(s, h, a).procs[q].pc, n, t0)
    ensures t0 <= Step(s, h, a).ticks
  {
    if Victim(s, h, a).Some? {
      VictimIdle(s, h, a);
    }
    match a
    case OfSched(x) => SchedSleeping(s, h, x, q, n, t0);
    case OfSwitch(p, x) => SwitchSleeping(s, h, p, x, q, n, t0);
    case OfMake(p, x) => MakeSleeping(s, h, p, x, q, n, t0);
    case OfLink(p, x) => LinkSleeping(s, h, p, x, q, n, t0);
    case OfWait(p, x) => WaitSleeping(s, h, p, x, q, n, t0);
    case OfSleep(p, x) => SleepSleeping(s, h, p, x, q, n, t0);
    case OfExit(p, x) => ExitSleeping(s, h, p, x, q, n, t0);
    case OfDie(p, x) => DieSleeping(s, h, p, x, q, n, t0);
    case OfTick(x) => TickSleeping(s, h, x, q, n, t0);
  }

  lemma TraceStep(states: seq<State>, steps: seq<(nat, Act)>, i: nat, i': nat)
    requires IsTrace(states, steps) && i < |steps| && i' == i + 1
    ensures Enabled(states[i], steps[i].0, steps[i].1) && states[i'] == Step(states[i], steps[i].0, steps[i].1)
  {
  }

  lemma {:induction false} TraceInv(states: seq<State>, steps: seq<(nat, Act)>, k: nat)
    requires IsTrace(states, steps) && Inv(states[0]) && k <= |steps|
    ensures Inv(states[k])
  {
    if k > 0 {
      var i := k - 1;
      TraceInv(states, steps, i);
      TraceStep(states, steps, i, k);
      StepInv(states[i], steps[i].0, steps[i].1);
    }
  }

  ghost predicate NotReturned(steps: seq<(nat, Act)>, p: nat, k: nat)
    requires k <= |steps|
  {
    forall i :: 0 <= i < k ==> steps[i].1 != OfTick(TickReturn(p))
  }

  lemma {:induction false} SleepingThrough(states: seq<State>, steps: seq<(nat, Act)>, p: nat, n: nat, k: nat)
    requires IsTrace(states, steps) && Inv(states[0]) && k <= |steps|
    requires p < |states[0].procs| && states[0].procs[p].pc == TickLk(n) && NotReturned(steps, p, k)
    ensures p < |states[k].procs| && Sleeping(states[k].procs[p].pc, n, states[0].ticks)
    ensures states[0].ticks <= states[k].ticks
  {
    if k > 0 {
      var i := k - 1;
      SleepingThrough(states, steps, p, n, i);
      TraceInv(states, steps, i);
      TraceStep(states, steps, i, k);
      StillSleeping(states[i], steps[i].0, steps[i].1, p, n, states[0].ticks);
    }
  }

  lemma ReturnsToUser(s: State, h: nat, p: nat)
    requires TickEnabled(s, h, TickReturn(p))
    ensures p < |s.procs| == |TickStep(s, h, TickReturn(p)).procs| && TickStep(s, h, TickReturn(p)).procs[p].pc == Run
  {
  }

  /** A process that calls sys_sleep(n) in state 0 of a stretch of a run, and first returns from it in step k,
      returns to user mode at a tick count at least n above that of the call, across wraparound of the 32-bit
      counter and whatever the harts do in between. */
  lemma SleepTakesTicks(run: seq<State>, j: nat, states: seq<State>, steps: seq<(nat, Act)>, p: nat, n: nat, k: nat)
    requires IsRun(run) && j < |run| && IsTrace(states, steps) && states[0] == run[j] && k < |steps|
    requires p < |states[0].procs| && states[0].procs[p].pc == TickLk(n) && NotReturned(steps, p, k)
    requires steps[k].1 == OfTick(TickReturn(p))
    ensures states[k].ticks >= states[0].ticks + n
    ensures p < |states[k + 1].procs| && states[k + 1].procs[p].pc == Run
  {
    RunInv(run, j);
    SleepingThrough(states, steps, p, n, k);
    TraceInv(states, steps, k);
    TraceStep(states, steps, k, k + 1);
    ReturnsToUser(states[k], steps[k].0, p);
    assert TickOk(states[k], p);
    ElapsedAtMostTrue(states[k].ticks, states[k].procs[p].pc.start);
  }
}

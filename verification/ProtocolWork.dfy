/** How much work a system call takes: a bound on the steps of a process between two sleeps, in every run. */
module ProtocolWork {
  import opened Options
  import opened ProtocolState
  import opened ProtocolInv
  import opened ProtocolForest
  import opened ProtocolTheorems
  import opened ProtocolSafety
  import opened ProtocolProgress
  import opened ProtocolSleep
  import opened ProtocolThreads
  import opened ProtocolLife
  import opened ProtocolFamily
  import opened ProtocolCalls

  /** Steps that a thread at pc has before it, at most, until it is in user mode, asleep or dead; n is NPROC. */
  function Work(n: nat, pc: Pc): int {
    match pc
    case Run => 0
    case Claim(i) => 6 + n - i
    case TakePid(_) => 5
    case Build(_) => 4
    case LinkLock(_) => 3
    case Link(_) => 2
    case Discard(_) => 1
    case Unwait(_) => 1
    case WaitLk => 7 + n
    case Scan(i, _) => 6 + n - i
    case SleepBoth(_) => 3
    case SleepOwn(_) => 2
    case Asleep(_) => 1
    case Relock(_) => 7 + n
    case TickLk(_) => 7
    case TickLoop(_, _) => 6
    case ExitFree => 10 + 3 * n
    case ExitLk => 9 + 3 * n
    case FindInit => 8 + 3 * n
    case Reparent(i, _, _) => 7 + 2 * n + (n - i)
    case Wake(i, _, last) => if last then 4 + (n - i) else 6 + n + (n - i)
    case ToParent => 5 + n
    case Die => 3
    case ExitBoth => 2
    case Dead => 1
    case Born => 0
  }

  lemma WorkRange(s: State, p: nat)
    requires Inv(s) && p < |s.procs|
    ensures 0 <= Work(|s.procs|, s.procs[p].pc) <= 3 * |s.procs| + 10
  {
    assert ProcOk(s, p);
  }

  /** A step of a system call by p. */
  predicate Works(a: Act, p: nat) {
    Actor(a) == Some(p) && !a.OfSwitch?
  }

  /** A step after which p has a call or a round of a call before it: it enters the kernel, or goes on after a sleep. */
  predicate Restarts(s: State, a: Act, p: nat)
    requires p < |s.procs|
  {
    a.OfSwitch? && a.p == p && (a.switch.Enter? || (a.switch == Resume && s.procs[p].pc.Asleep?))
  }

  lemma WorkMake(s: State, h: nat, p: nat, a: MakeAct)
    requires MakeEnabled(s, h, p, a) && MakeOk(s, p) && s.procs[p].state == Running
    requires s.procs[p].pc.Claim? ==> s.procs[p].pc.i <= |s.procs|
    ensures var n := |s.procs|; Work(n, MakeStep(s, h, p, a).procs[p].pc) < Work(n, s.procs[p].pc)
  {
  }

  lemma WorkLink(s: State, h: nat, p: nat, a: LinkAct)
    requires LinkEnabled(s, h, p, a) && s.procs[p].state == Running
    ensures var n := |s.procs|; Work(n, LinkStep(s, h, p, a).procs[p].pc) < Work(n, s.procs[p].pc)
  {
  }

  lemma WorkWait(s: State, h: nat, p: nat, a: WaitAct)
    requires WaitEnabled(s, h, p, a) && s.procs[p].state == Running
    ensures var n := |s.procs|; Work(n, WaitStep(s, h, p, a).procs[p].pc) < Work(n, s.procs[p].pc)
  {
    if a.ScanSlot? {
      ScanAdvances(s, h, p, a.copyFails);
    }
  }

  lemma ScanAdvances(s: State, h: nat, p: nat, copyFails: bool)
    requires WaitEnabled(s, h, p, ScanSlot(copyFails)) && s.procs[p].state == Running
    ensures var pc, pc' := s.procs[p].pc, WaitStep(s, h, p, ScanSlot(copyFails)).procs[p].pc;
            pc'.Unwait? || (pc'.Scan? && pc'.i == pc.i + 1)
  {
  }

  lemma WorkSleep(s: State, h: nat, p: nat, a: SleepAct)
    requires SleepEnabled(s, h, p, a)
    ensures var n := |s.procs|; Work(n, SleepStep(s, h, p, a).procs[p].pc) < Work(n, s.procs[p].pc)
  {
  }

  lemma WorkExit(s: State, h: nat, p: nat, a: ExitAct)
    requires ExitEnabled(s, h, p, a) && s.procs[p].state == Running
    ensures var n := |s.procs|; Work(n, ExitStep(s, h, p, a).procs[p].pc) < Work(n, s.procs[p].pc)
  {
    if a == ReparentSlot {
      ReparentAdvances(s, h, p);
    }
  }

  lemma ReparentAdvances(s: State, h: nat, p: nat)
    requires ExitEnabled(s, h, p, ReparentSlot) && s.procs[p].state == Running
    ensures var pc, pc' := s.procs[p].pc, ExitStep(s, h, p, ReparentSlot).procs[p].pc;
            pc'.Reparent? && pc'.i == pc.i + 1
  {
  }

  lemma WorkDie(s: State, h: nat, p: nat, a: DieAct)
    requires DieEnabled(s, h, p, a)
    ensures var n := |s.procs|; Work(n, DieStep(s, h, p, a).procs[p].pc) < Work(n, s.procs[p].pc)
  {
    if a == WakeSlot {
      WakeAdvances(s, h, p, s.procs[p].pc.i);
    } else {
      DieAdvances(s, h, p, a);
    }
  }

  lemma WakeAdvances(s: State, h: nat, p: nat, i: nat)
    requires DieEnabled(s, h, p, WakeSlot) && i == s.procs[p].pc.i
    ensures var pc := s.procs[p].pc; DieStep(s, h, p, WakeSlot).procs[p].pc == Wake(i + 1, pc.target, pc.last)
  {
    WakeIs(s, h, p, i);
  }

  lemma DieAdvances(s: State, h: nat, p: nat, a: DieAct)
    requires DieEnabled(s, h, p, a) && a != WakeSlot
    ensures var pc, pc' := s.procs[p].pc, DieStep(s, h, p, a).procs[p].pc;
            match a
            case WakeEnd => pc.Wake? && pc.i == |s.procs| && pc' == if pc.last then Die else ToParent
            case NotifyParent => pc == ToParent && (pc' == Die || (pc'.Wake? && pc'.i == 0 && pc'.last))
            case MarkZombie => pc == Die && pc' == ExitBoth
            case ExitRel => pc == ExitBoth && pc' == Dead
  {
  }

  lemma WorkTick(s: State, h: nat, p: nat, a: TickAct)
    requires TickEnabled(s, h, a) && Actor(OfTick(a)) == Some(p)
    ensures p < |s.procs|
    ensures var n := |s.procs|; Work(n, TickStep(s, h, a).procs[p].pc) < Work(n, s.procs[p].pc)
  {
  }

  /** Every step of a system call leaves less to do. */
  lemma WorkShrinks(s: State, h: nat, a: Act, p: nat)
    requires Inv(s) && Enabled(s, h, a) && Works(a, p) && p < |s.procs|
    ensures |Step(s, h, a).procs| == |s.procs|
    ensures Work(|s.procs|, Step(s, h, a).procs[p].pc) < Work(|s.procs|, s.procs[p].pc)
  {
    EnabledHart(s, h, a);
    if a.OfTick? {
      WorkTick(s, h, p, a.tick);
    } else {
      ActorOk(s, h, p);
      match a
      case OfMake(_, x) => WorkMake(s, h, p, x);
      case OfLink(_, x) => WorkLink(s, h, p, x);
      case OfWait(_, x) => WorkWait(s, h, p, x);
      case OfSleep(_, x) => WorkSleep(s, h, p, x);
      case OfExit(_, x) => WorkExit(s, h, p, x);
      case OfDie(_, x) => WorkDie(s, h, p, x);
    }
  }

  /** No other step adds to it. */
  lemma WorkStays(s: State, h: nat, a: Act, p: nat)
    requires Inv(s) && Enabled(s, h, a) && p < |s.procs| && !Works(a, p) && !Restarts(s, a, p)
    ensures |Step(s, h, a).procs| == |s.procs|
    ensures Work(|s.procs|, Step(s, h, a).procs[p].pc) <= Work(|s.procs|, s.procs[p].pc)
  {
    EnabledHart(s, h, a);
    if Victim(s, h, a) == Some(p) {
      VictimGone(s, h, a, p);
      WorkRange(s, p);
    } else if Actor(a) == Some(p) {
      SwitchKeeps(s, h, p, a.switch);
    } else {
      OnlyActorMoves(s, h, a, p);
    }
  }

  /** The steps of system calls that p takes among the first k. */
  function Worked(steps: seq<(nat, Act)>, p: nat, k: nat): nat
    requires k <= |steps|
  {
    if k == 0 then 0 else Worked(steps, p, k - 1) + Bit(Works(steps[k - 1].1, p))
  }

  /** p neither enters the kernel nor goes on after a sleep in the first k steps. */
  ghost predicate NoRestart(states: seq<State>, steps: seq<(nat, Act)>, p: nat, k: nat)
    requires IsTrace(states, steps)
  {
    forall i :: 0 <= i < k && i < |steps| ==> p < |states[i].procs| && !Restarts(states[i], steps[i].1, p)
  }

  lemma {:induction false} WorkAdds(states: seq<State>, steps: seq<(nat, Act)>, p: nat, n: nat, k: nat)
    requires IsTrace(states, steps) && Inv(states[0]) && k <= |steps| && n == |states[0].procs| && p < n
    requires NoRestart(states, steps, p, k)
    ensures |states[k].procs| == n
    ensures Worked(steps, p, k) + Work(n, states[k].procs[p].pc) <= Work(n, states[0].procs[p].pc)
  {
    if k > 0 {
      var i := k - 1;
      WorkAdds(states, steps, p, n, i);
      TraceInv(states, steps, i);
      TraceStep(states, steps, i, k);
      var h, a := steps[i].0, steps[i].1;
      if Works(a, p) {
        WorkShrinks(states[i], h, a, p);
      } else {
        WorkStays(states[i], h, a, p);
      }
    }
  }

  /** Every system call is short, in every run: between entering the kernel or waking up and returning, falling asleep
      or dying, a process takes at most 3 * NPROC + 10 steps of its own, whatever the harts do. */
  lemma CallsAreBounded(run: seq<State>, j: nat, states: seq<State>, steps: seq<(nat, Act)>, p: nat, n: nat, k: nat)
    requires IsRun(run) && j < |run| && IsTrace(states, steps) && states[0] == run[j] && k <= |steps|
    requires n == |states[0].procs| && p < n && NoRestart(states, steps, p, k)
    ensures Worked(steps, p, k) <= 3 * n + 10
  {
    RunInv(run, j);
    WorkAdds(states, steps, p, n, k);
    WorkRange(states[0], p);
    TraceInv(states, steps, k);
    WorkRange(states[k], p);
  }
}

/** The process protocol over whole runs: the invariant holds in every reachable state, and what
    follows from it. */
module ProtocolTheorems {
  import opened ProtocolState
  import opened ProtocolInv
  import opened ProtocolCore
  import opened ProtocolFork
  import opened ProtocolForest
  import opened ProtocolLost
  import opened ProtocolTicks

  // ---------------------------------------------------------------- the invariant over every run

  lemma InitInv(s: State)
    requires Init(s)
    ensures Inv(s)
  {
    forall p | 0 <= p < |s.procs|
      ensures ProcOk(s, p) && MakeOk(s, p) && NewOk(s, p) && PidOk(s, p) && ParentOk(s, p) && ExitOk(s, p)
      ensures WatchOk(s, p) && TickOk(s, p) && SavedOk(s.procs[p])
    {
    }
  }

  lemma SchedInv(s: State, h: nat, a: SchedAct)
    requires Inv(s) && SchedEnabled(s, h, a)
    ensures Inv(SchedStep(s, h, a))
  {
    ForkSched(s, h, a);
    ForestSched(s, h, a);
    LostSched(s, h, a);
    TicksSched(s, h, a);
    IntrSched(s, h, a);
    match a
    case Skip(i) => CoreSkip(s, h, i);
    case Pick(i) => CorePick(s, h, i);
    case OpenIntr => CoreOpenIntr(s, h);
    case CloseIntr => CoreCloseIntr(s, h);
    case SwtchIn(p) => CoreSwtchIn(s, h, p);
    case Return(p) => CoreReturn(s, h, p);
  }

  lemma SwitchInv(s: State, h: nat, p: nat, a: SwitchAct)
    requires Inv(s) && SwitchEnabled(s, h, p, a)
    ensures Inv(SwitchStep(s, h, p, a))
  {
    ForkSwitch(s, h, p, a);
    ForestSwitch(s, h, p, a);
    LostSwitch(s, h, p, a);
    TicksSwitch(s, h, p, a);
    IntrSwitch(s, h, p, a);
    match a
    case Preempt => CorePreempt(s, h, p);
    case SwtchOut => CoreSwtchOut(s, h, p);
    case Resume => CoreResume(s, h, p);
    case Enter(to, fault) => CoreEnter(s, h, p, to, fault);
  }

  lemma MakeInv(s: State, h: nat, p: nat, a: MakeAct)
    requires Inv(s) && MakeEnabled(s, h, p, a)
    ensures Inv(MakeStep(s, h, p, a))
  {
    ForkMake(s, h, p, a);
    ForestMake(s, h, p, a);
    LostMake(s, h, p, a);
    TicksMake(s, h, p, a);
    IntrMake(s, h, p, a);
    match a
    case ClaimSlot => CoreClaimSlot(s, h, p);
    case AssignPid => CoreAssignPid(s, h, p);
    case BuildDone(k, f, ok) => CoreBuildDone(s, h, p, k, f, ok);
    case DiscardChild => CoreDiscardChild(s, h, p);
  }

  lemma LinkInv(s: State, h: nat, p: nat, a: LinkAct)
    requires Inv(s) && LinkEnabled(s, h, p, a)
    ensures Inv(LinkStep(s, h, p, a))
  {
    ForkLink(s, h, p, a);
    ForestLink(s, h, p, a);
    LostLink(s, h, p, a);
    TicksLink(s, h, p, a);
    IntrLink(s, h, p, a);
    match a
    case LinkAcq => CoreLinkAcq(s, h, p);
    case LinkChild => CoreLinkChild(s, h, p);
    case UnwaitRel => CoreUnwaitRel(s, h, p);
  }

  lemma WaitInv(s: State, h: nat, p: nat, a: WaitAct)
    requires Inv(s) && WaitEnabled(s, h, p, a)
    ensures Inv(WaitStep(s, h, p, a))
  {
    ForkWait(s, h, p, a);
    ForestWait(s, h, p, a);
    LostWait(s, h, p, a);
    TicksWait(s, h, p, a);
    IntrWait(s, h, p, a);
    match a
    case WaitAcq => CoreWaitAcq(s, h, p);
    case ScanSlot(copyFails) => CoreScanSlot(s, h, p, copyFails);
    case ScanNone => CoreScanNone(s, h, p);
  }

  lemma SleepInv(s: State, h: nat, p: nat, a: SleepAct)
    requires Inv(s) && SleepEnabled(s, h, p, a)
    ensures Inv(SleepStep(s, h, p, a))
  {
    ForkSleep(s, h, p, a);
    ForestSleep(s, h, p, a);
    LostSleep(s, h, p, a);
    TicksSleep(s, h, p, a);
    IntrSleep(s, h, p, a);
    match a
    case SleepAcq(r) => CoreSleepAcq(s, h, p, r);
    case SleepRel => CoreSleepRel(s, h, p);
    case SleepMark => CoreSleepMark(s, h, p);
    case RelockAcq => CoreRelockAcq(s, h, p);
  }

  lemma ExitInv(s: State, h: nat, p: nat, a: ExitAct)
    requires Inv(s) && ExitEnabled(s, h, p, a)
    ensures Inv(ExitStep(s, h, p, a))
  {
    ForkExit(s, h, p, a);
    ForestExit(s, h, p, a);
    LostExit(s, h, p, a);
    TicksExit(s, h, p, a);
    IntrExit(s, h, p, a);
    match a
    case FreeSpace => CoreFreeSpace(s, h, p);
    case ExitAcq => CoreExitAcq(s, h, p);
    case FindReaper(r) => CoreFindReaper(s, h, p, r);
    case ReparentSlot => CoreReparentSlot(s, h, p);
    case ReparentEnd => CoreReparentEnd(s, h, p);
  }

  lemma DieInv(s: State, h: nat, p: nat, a: DieAct)
    requires Inv(s) && DieEnabled(s, h, p, a)
    ensures Inv(DieStep(s, h, p, a))
  {
    ForkDie(s, h, p, a);
    ForestDie(s, h, p, a);
    LostDie(s, h, p, a);
    TicksDie(s, h, p, a);
    IntrDie(s, h, p, a);
    match a
    case WakeSlot => CoreWakeSlot(s, h, p);
    case WakeEnd => CoreWakeEnd(s, h, p);
    case NotifyParent => CoreNotifyParent(s, h, p);
    case MarkZombie => CoreMarkZombie(s, h, p);
    case ExitRel => CoreExitRel(s, h, p);
  }

  lemma TickStepInv(s: State, h: nat, a: TickAct)
    requires Inv(s) && TickEnabled(s, h, a)
    ensures Inv(TickStep(s, h, a))
  {
    ForkTick(s, h, a);
    ForestTick(s, h, a);
    LostTick(s, h, a);
    TicksTick(s, h, a);
    IntrTick(s, h, a);
    match a
    case TickAcq(p) => CoreTickAcq(s, h, p);
    case TickReturn(p) => CoreTickReturn(s, h, p);
    case TickFire => CoreTickFire(s, h);
    case TickScan => CoreTickScan(s, h);
    case TickEnd => CoreTickEnd(s, h);
    case LeafAcq(k) => CoreLeafAcq(s, h, k);
    case LeafRel => CoreLeafRel(s, h);
  }

  /** Every step of every hart keeps the invariant. */
  lemma StepInv(s: State, h: nat, a: Act)
    requires Inv(s) && Enabled(s, h, a)
    ensures Inv(Step(s, h, a))
  {
    match a
    case OfSched(x) => SchedInv(s, h, x);
    case OfSwitch(p, x) => SwitchInv(s, h, p, x);
    case OfMake(p, x) => MakeInv(s, h, p, x);
    case OfLink(p, x) => LinkInv(s, h, p, x);
    case OfWait(p, x) => WaitInv(s, h, p, x);
    case OfSleep(p, x) => SleepInv(s, h, p, x);
    case OfExit(p, x) => ExitInv(s, h, p, x);
    case OfDie(p, x) => DieInv(s, h, p, x);
    case OfTick(x) => TickStepInv(s, h, x);
  }

  /** Every state of every run, under every interleaving of the harts, satisfies the invariant. */
  lemma {:induction false} RunInv(run: seq<State>, i: nat)
    requires IsRun(run) && i < |run|
    ensures Inv(run[i])
  {
    if i == 0 {
      InitInv(run[0]);
    } else {
      RunInv(run, i - 1);
      assert Next(run[i - 1], run[i - 1 + 1]);
      var h: nat, a: Act :| Enabled(run[i - 1], h, a) && run[i] == Step(run[i - 1], h, a);
      StepInv(run[i - 1], h, a);
    }
  }
}

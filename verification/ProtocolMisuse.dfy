/** The panics of kernel/spinlock.c and kernel/proc.c, stated as conditions on the state before the call: none of them
    is ever met. */
module ProtocolMisuse {
  import opened Options
  import opened ProtocolState
  import opened ProtocolInv
  import opened ProtocolTheorems
  import opened ProtocolProgress

  /** lock(): no hart asks for a lock it holds. */
  lemma NoSelfLock(run: seq<State>, i: nat, h: nat, l: LockId)
    requires IsRun(run) && i < |run| && MayRequest(run[i], h, l)
    ensures !Holding(run[i], h, l)
  {
    RunInv(run, i);
    if Holding(run[i], h, l) {
      LockOrder(run[i], h, l, l);
    }
  }

  /** The lock that a step starts by giving back. */
  function GivesBack(s: State, h: nat, a: Act): Option<LockId>
    requires Enabled(s, h, a)
  {
    match a
    case OfSched(Return(p)) => Some(ProcLock(p))
    case OfSwitch(p, Resume) => Some(ProcLock(p))
    case OfLink(p, UnwaitRel) => Some(WaitLock)
    case OfSleep(p, SleepRel) => Some(SleepLock(s.procs[p].pc.r))
    case OfDie(p, ExitRel) => Some(WaitLock)
    case OfTick(TickReturn(p)) => Some(TicksLock)
    case OfTick(TickEnd) => Some(TicksLock)
    case OfTick(LeafRel) => Some(LeafLock(s.harts[h].leaf.value))
    case _ => None
  }

  /** unlock() and pop_off(): a hart gives back only a lock it holds, with interrupts off and a positive depth; after
      the step nobody holds it. */
  lemma UnlocksItsOwn(run: seq<State>, i: nat, h: nat, a: Act)
    requires IsRun(run) && i < |run| && Enabled(run[i], h, a) && GivesBack(run[i], h, a).Some?
    ensures var l := GivesBack(run[i], h, a).value;
            && h < |run[i].harts| && Holding(run[i], h, l) && !run[i].harts[h].sie && run[i].harts[h].depth >= 1
            && l !in Step(run[i], h, a).held
  {
    var s, l := run[i], GivesBack(run[i], h, a).value;
    RunInv(run, i);
    assert HartOk(s, h);
    assert Holding(s, h, l) == MustHold(s, h, l);
    GivesBackHeld(s, h, a, l);
  }

  lemma GivesBackHeld(s: State, h: nat, a: Act, l: LockId)
    requires Enabled(s, h, a) && GivesBack(s, h, a) == Some(l) && h < |s.harts| && HartOk(s, h)
    requires a.OfSwitch? || a.OfLink? || a.OfSleep? || a.OfDie? ==> a.p < |s.procs|
    ensures MustHold(s, h, l) && l !in Step(s, h, a).held
  {
  }

  /** sched(): it is called with p->lock held and no other lock, by a process that is no longer RUNNING, with
      interrupts off. */
  lemma SchedCalledRight(run: seq<State>, i: nat, h: nat, p: nat)
    requires IsRun(run) && i < |run| && SwitchEnabled(run[i], h, p, SwtchOut)
    ensures Holding(run[i], h, ProcLock(p)) && forall l :: Holding(run[i], h, l) ==> l == ProcLock(p)
    ensures run[i].harts[h].depth == 1 && !run[i].harts[h].sie && run[i].procs[p].state != Running
  {
    var s := run[i];
    RunInv(run, i);
    assert HartOk(s, h) && ProcOk(s, p);
    assert Holding(s, h, ProcLock(p)) == MustHold(s, h, ProcLock(p));
    forall l | Holding(s, h, l)
      ensures l == ProcLock(p)
    {
      assert Holding(s, h, l) == MustHold(s, h, l);
    }
  }

  /** kexit(): its address space is still there to free, and a zombie does not come back. */
  lemma ExitOnce(run: seq<State>, i: nat, h: nat, p: nat)
    requires IsRun(run) && i < |run|
    ensures ExitEnabled(run[i], h, p, FreeSpace) ==> run[i].procs[p].pt
    ensures SwitchEnabled(run[i], h, p, Resume) ==> !run[i].procs[p].pc.Dead? && run[i].procs[p].state == Running
  {
    RunInv(run, i);
    if p < |run[i].procs| {
      assert ProcOk(run[i], p);
    }
  }
}

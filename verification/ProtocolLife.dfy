/** The life of a process slot: which step takes it from which state to which. */
module ProtocolLife {
  import opened Options
  import opened ProtocolState
  import opened ProtocolInv
  import opened ProtocolForest
  import opened ProtocolSafety
  import opened ProtocolProgress

  /** The steps that take a slot from one state to another. */
  datatype Change = Stays | Claimed | Linked | Dispatched | Yielded | FellAsleep | WokenUp | Exited | Released

  /** What step a means for slot q, from the kind of step and the slot it is about. */
  function ChangeOf(s: State, h: nat, a: Act, q: nat): Change
    requires Enabled(s, h, a) && q < |s.procs|
  {
    if Victim(s, h, a) == Some(q) then Released
    else
      match a
      case OfMake(p, ClaimSlot) => if s.procs[p].pc == Claim(q) && s.procs[q].state == Unused then Claimed else Stays
      case OfLink(p, LinkChild) => if s.procs[p].pc == Link(q) then Linked else Stays
      case OfSched(Pick(i)) => if i == q then Dispatched else Stays
      case OfSwitch(p, Preempt) => if p == q then Yielded else Stays
      case OfSleep(p, SleepMark) => if p == q then FellAsleep else Stays
      case OfDie(p, MarkZombie) => if p == q then Exited else Stays
      case OfDie(p, WakeSlot) =>
        if s.procs[p].pc.i == q && s.procs[q].state == Waiting && s.procs[q].chan == OnProc(s.procs[p].pc.target)
        then WokenUp else Stays
      case OfTick(TickScan) =>
        if s.harts[h].clk.i == q && s.procs[q].state == Waiting && s.procs[q].chan == OnTicks then WokenUp else Stays
      case _ => Stays
  }

  /** The edges of the state diagram. */
  predicate Edge(c: Change, from: PState, to: PState) {
    match c
    case Stays => to == from
    case Claimed => from == Unused && to == New
    case Linked => from == New && to == Ready
    case Dispatched => from == Ready && to == Running
    case Yielded => from == Running && to == Ready
    case FellAsleep => from == Running && to == Waiting
    case WokenUp => from == Waiting && to == Ready
    case Exited => from == Running && to == Zombie
    case Released => (from == New || from == Zombie) && to == Unused
  }

  lemma LifeSched(s: State, h: nat, a: SchedAct, q: nat)
    requires SchedEnabled(s, h, a) && q < |s.procs|
    ensures Edge(ChangeOf(s, h, OfSched(a), q), s.procs[q].state, SchedStep(s, h, a).procs[q].state)
  {
  }

  lemma LifeSwitch(s: State, h: nat, p: nat, a: SwitchAct, q: nat)
    requires SwitchEnabled(s, h, p, a) && q < |s.procs| && ProcOk(s, p)
    ensures Edge(ChangeOf(s, h, OfSwitch(p, a), q), s.procs[q].state, SwitchStep(s, h, p, a).procs[q].state)
  {
  }

  lemma LifeMake(s: State, h: nat, p: nat, a: MakeAct, q: nat)
    requires MakeEnabled(s, h, p, a) && q < |s.procs| && MakeOk(s, p) && s.procs[p].state == Running
    ensures Edge(ChangeOf(s, h, OfMake(p, a), q), s.procs[q].state, MakeStep(s, h, p, a).procs[q].state)
  {
  }

  lemma LifeLink(s: State, h: nat, p: nat, a: LinkAct, q: nat)
    requires LinkEnabled(s, h, p, a) && q < |s.procs| && MakeOk(s, p) && s.procs[p].state == Running
    ensures Edge(ChangeOf(s, h, OfLink(p, a), q), s.procs[q].state, LinkStep(s, h, p, a).procs[q].state)
  {
  }

  lemma LifeWait(s: State, h: nat, p: nat, a: WaitAct, q: nat)
    requires WaitEnabled(s, h, p, a) && q < |s.procs| && s.procs[p].state == Running
    ensures Edge(ChangeOf(s, h, OfWait(p, a), q), s.procs[q].state, WaitStep(s, h, p, a).procs[q].state)
  {
  }

  lemma LifeSleep(s: State, h: nat, p: nat, a: SleepAct, q: nat)
    requires SleepEnabled(s, h, p, a) && q < |s.procs| && s.procs[p].state == Running
    ensures Edge(ChangeOf(s, h, OfSleep(p, a), q), s.procs[q].state, SleepStep(s, h, p, a).procs[q].state)
  {
  }

  lemma LifeExit(s: State, h: nat, p: nat, a: ExitAct, q: nat)
    requires ExitEnabled(s, h, p, a) && q < |s.procs| && s.procs[p].state == Running
    ensures Edge(ChangeOf(s, h, OfExit(p, a), q), s.procs[q].state, ExitStep(s, h, p, a).procs[q].state)
  {
    if a == ReparentSlot {
      LifeReparent(s, h, p, q, s.procs[p].pc.i);
    }
  }

  lemma LifeReparent(s: State, h: nat, p: nat, q: nat, c: nat)
    requires ExitEnabled(s, h, p, ReparentSlot) && q < |s.procs| && s.procs[p].state == Running && c == s.procs[p].pc.i
    ensures var gone := s.procs[c].parent == Some(p) && s.procs[c].state == Zombie && s.procs[p].pc.reaper.None?;
            ExitStep(s, h, p, ReparentSlot).procs[q].state == if gone && q == c then Unused else s.procs[q].state
  {
  }

  lemma LifeDie(s: State, h: nat, p: nat, a: DieAct, q: nat)
    requires DieEnabled(s, h, p, a) && q < |s.procs| && (a != ExitRel ==> s.procs[p].state == Running)
    ensures Edge(ChangeOf(s, h, OfDie(p, a), q), s.procs[q].state, DieStep(s, h, p, a).procs[q].state)
  {
    if a == WakeSlot {
      LifeWake(s, h, p, q, s.procs[p].pc.i);
    }
  }

  lemma LifeWake(s: State, h: nat, p: nat, q: nat, i: nat)
    requires DieEnabled(s, h, p, WakeSlot) && q < |s.procs| && i == s.procs[p].pc.i
    ensures var x, chan := s.procs[q], OnProc(s.procs[p].pc.target);
            DieStep(s, h, p, WakeSlot).procs[q].state ==
            if q == i && x.state == Waiting && x.chan == chan then Ready else x.state
  {
    WakeIs(s, h, p, i);
  }

  lemma LifeTick(s: State, h: nat, a: TickAct, q: nat)
    requires TickEnabled(s, h, a) && q < |s.procs|
    ensures Edge(ChangeOf(s, h, OfTick(a), q), s.procs[q].state, TickStep(s, h, a).procs[q].state)
  {
  }

  lemma ActorOk(s: State, h: nat, p: nat)
    requires Inv(s) && Exec(s, h, p)
    ensures ProcOk(s, p) && MakeOk(s, p)
    ensures At(s, h, p) && s.procs[p].pc != ExitBoth ==> s.procs[p].state == Running
  {
  }

  /** The life cycle of a slot: fork claims and links it, the scheduler dispatches it, the timer takes it off, it sleeps
      and is woken on its channel only, it exits, and it is released when NEW or a zombie.  Each of these
      steps does so, and no other step changes the state of any slot. */
  lemma LifeCycle(s: State, h: nat, a: Act, q: nat)
    requires Inv(s) && Enabled(s, h, a) && q < |s.procs|
    ensures |Step(s, h, a).procs| == |s.procs|
    ensures Edge(ChangeOf(s, h, a, q), s.procs[q].state, Step(s, h, a).procs[q].state)
  {
    EnabledHart(s, h, a);
    if !a.OfSched? && !a.OfTick? {
      ActorOk(s, h, a.p);
    }
    match a
    case OfSched(x) => LifeSched(s, h, x, q);
    case OfSwitch(p, x) => LifeSwitch(s, h, p, x, q);
    case OfMake(p, x) => LifeMake(s, h, p, x, q);
    case OfLink(p, x) => LifeLink(s, h, p, x, q);
    case OfWait(p, x) => LifeWait(s, h, p, x, q);
    case OfSleep(p, x) => LifeSleep(s, h, p, x, q);
    case OfExit(p, x) => LifeExit(s, h, p, x, q);
    case OfDie(p, x) => LifeDie(s, h, p, x, q);
    case OfTick(x) => LifeTick(s, h, x, q);
  }
}

/** What a step leaves alone: the position of every thread but its own, the parents of every slot it does not link. */
module ProtocolThreads {
  import opened Options
  import opened ProtocolState
  import opened ProtocolSafety

  /** The thread that a step belongs to; scheduler and tick-handler steps belong to none. */
  function Actor(a: Act): Option<nat> {
    match a
    case OfSched(_) => None
    case OfSwitch(p, _) => Some(p)
    case OfMake(p, _) => Some(p)
    case OfLink(p, _) => Some(p)
    case OfWait(p, _) => Some(p)
    case OfSleep(p, _) => Some(p)
    case OfExit(p, _) => Some(p)
    case OfDie(p, _) => Some(p)
    case OfTick(x) => if x.TickAcq? || x.TickReturn? then Some(x.p) else None
  }

  /** The slot whose parent a step sets. */
  function Relinked(s: State, h: nat, a: Act): Option<nat>
    requires Enabled(s, h, a)
  {
    match a
    case OfLink(p, LinkChild) => Some(s.procs[p].pc.c)
    case OfExit(p, ReparentSlot) =>
      if s.procs[s.procs[p].pc.i].parent == Some(p) then Some(s.procs[p].pc.i) else None
    case _ => None
  }

  /** Slot q, which the step did not release, from s to t. */
  predicate Kept(s: State, t: State, q: nat, own: bool, linked: bool)
    requires q < |s.procs|
  {
    && |t.procs| == |s.procs|
    && (!own ==> t.procs[q].pc == s.procs[q].pc)
    && (!linked ==> t.procs[q].parent == s.procs[q].parent)
    && (t.procs[q].hart == s.procs[q].hart || s.procs[q].state == Ready)
  }

  lemma KeptSched(s: State, h: nat, a: SchedAct, q: nat)
    requires SchedEnabled(s, h, a) && q < |s.procs| && Victim(s, h, OfSched(a)) != Some(q)
    ensures Kept(s, SchedStep(s, h, a), q, false, false)
  {
  }

  lemma KeptSwitch(s: State, h: nat, p: nat, a: SwitchAct, q: nat)
    requires SwitchEnabled(s, h, p, a) && q < |s.procs|
    ensures Kept(s, SwitchStep(s, h, p, a), q, p == q, false)
  {
  }

  lemma KeptMake(s: State, h: nat, p: nat, a: MakeAct, q: nat)
    requires MakeEnabled(s, h, p, a) && q < |s.procs| && Victim(s, h, OfMake(p, a)) != Some(q)
    ensures Kept(s, MakeStep(s, h, p, a), q, p == q, false)
  {
  }

  lemma KeptLink(s: State, h: nat, p: nat, a: LinkAct, q: nat)
    requires LinkEnabled(s, h, p, a) && q < |s.procs|
    ensures Kept(s, LinkStep(s, h, p, a), q, p == q, a == LinkChild && s.procs[p].pc.c == q)
  {
  }

  lemma KeptWait(s: State, h: nat, p: nat, a: WaitAct, q: nat)
    requires WaitEnabled(s, h, p, a) && q < |s.procs| && Victim(s, h, OfWait(p, a)) != Some(q)
    ensures Kept(s, WaitStep(s, h, p, a), q, p == q, false)
  {
  }

  lemma KeptSleep(s: State, h: nat, p: nat, a: SleepAct, q: nat)
    requires SleepEnabled(s, h, p, a) && q < |s.procs|
    ensures Kept(s, SleepStep(s, h, p, a), q, p == q, false)
  {
  }

  lemma KeptExit(s: State, h: nat, p: nat, a: ExitAct, q: nat)
    requires ExitEnabled(s, h, p, a) && q < |s.procs| && Victim(s, h, OfExit(p, a)) != Some(q)
    ensures Kept(s, ExitStep(s, h, p, a), q, p == q, Relinked(s, h, OfExit(p, a)) == Some(q))
  {
  }

  lemma KeptDie(s: State, h: nat, p: nat, a: DieAct, q: nat)
    requires DieEnabled(s, h, p, a) && q < |s.procs|
    ensures Kept(s, DieStep(s, h, p, a), q, p == q, false)
  {
  }

  lemma KeptTick(s: State, h: nat, a: TickAct, q: nat)
    requires TickEnabled(s, h, a) && q < |s.procs|
    ensures Kept(s, TickStep(s, h, a), q, Actor(OfTick(a)) == Some(q), false)
  {
  }

  /** No step moves another thread, or changes a parent, except where it says so. */
  lemma OnlyActorMoves(s: State, h: nat, a: Act, q: nat)
    requires Enabled(s, h, a) && q < |s.procs| && Victim(s, h, a) != Some(q)
    ensures Kept(s, Step(s, h, a), q, Actor(a) == Some(q), Relinked(s, h, a) == Some(q))
  {
    match a
    case OfSched(x) => KeptSched(s, h, x, q);
    case OfSwitch(p, x) => KeptSwitch(s, h, p, x, q);
    case OfMake(p, x) => KeptMake(s, h, p, x, q);
    case OfLink(p, x) => KeptLink(s, h, p, x, q);
    case OfWait(p, x) => KeptWait(s, h, p, x, q);
    case OfSleep(p, x) => KeptSleep(s, h, p, x, q);
    case OfExit(p, x) => KeptExit(s, h, p, x, q);
    case OfDie(p, x) => KeptDie(s, h, p, x, q);
    case OfTick(x) => KeptTick(s, h, x, q);
  }
}

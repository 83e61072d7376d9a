/** Every step keeps ForestInv: parents are live, older processes, and a process that becomes a
    zombie has no children left. */
module ProtocolForest {
  import opened Options
  import opened ProtocolState
  import opened ProtocolInv
  import opened ProtocolCore

  /** wait_lock has one holder. */
  lemma OneWaiter(s: State, p: nat, q: nat)
    requires CoreInv(s) && p < |s.procs| && q < |s.procs| && HoldsWait(s.procs[p]) && HoldsWait(s.procs[q])
    ensures p == q
  {
    WaiterHart(s, p);
    WaiterHart(s, q);
  }

  lemma WaiterHart(s: State, p: nat)
    requires CoreInv(s) && p < |s.procs| && HoldsWait(s.procs[p])
    ensures s.procs[p].hart < |s.harts| && s.harts[s.procs[p].hart].mode == InProc(p)
    ensures Holding(s, s.procs[p].hart, WaitLock)
  {
    assert ProcOk(s, p);
    var k := s.procs[p].hart;
    assert Current(s, p);
    assert HartOk(s, k);
    assert Holding(s, k, WaitLock) == MustHold(s, k, WaitLock);
  }

  predicate ExitPhase(pc: Pc) {
    pc.Reparent? || pc.Wake? || pc.ToParent? || pc.Die?
  }

  predicate SameForest(x: Proc, y: Proc) {
    && x.parent == y.parent && (x.pid == y.pid || (!Alive(x.state) && y.parent.None?))
    && (Alive(x.state) ==> Alive(y.state))
    && (x.pc == y.pc || !ExitPhase(y.pc))
  }

  lemma ForestFrame(s: State, t: State)
    requires ForestInv(s) && |s.procs| == |t.procs|
    requires forall q :: 0 <= q < |s.procs| ==> SameForest(s.procs[q], t.procs[q])
    ensures ForestInv(t)
  {
    forall q | 0 <= q < |s.procs|
      ensures ParentOk(t, q) && ExitOk(t, q)
    {
      assert ParentOk(s, q) && ExitOk(s, q);
      assert SameForest(s.procs[q], t.procs[q]);
    }
  }

  lemma ForestOwn(s: State, t: State, p: nat)
    requires ForestInv(s) && p < |s.procs| == |t.procs|
    requires t.procs == s.procs[p := t.procs[p]] && SameForest(s.procs[p], t.procs[p])
    ensures ForestInv(t)
  {
    ForestFrame(s, t);
  }

  /** Releasing a slot that is no live process leaves no dangling parent. */
  lemma ForestReleased(s: State, t: State, q: nat)
    requires ForestInv(s) && |s.procs| == |t.procs| && q < |s.procs| && !Alive(s.procs[q].state)
    requires t.procs[q] == UNUSED_PROC.(hart := s.procs[q].hart)
    requires forall k :: 0 <= k < |s.procs| && k != q ==> SameForest(s.procs[k], t.procs[k])
    ensures ForestInv(t)
  {
    forall k | 0 <= k < |s.procs|
      ensures ParentOk(t, k) && ExitOk(t, k)
    {
      assert ParentOk(s, k) && ExitOk(s, k);
      assert k != q ==> SameForest(s.procs[k], t.procs[k]);
    }
  }

  lemma ForestSched(s: State, h: nat, a: SchedAct)
    requires CoreInv(s) && ForestInv(s) && SchedEnabled(s, h, a)
    ensures ForestInv(SchedStep(s, h, a))
  {
    var t := SchedStep(s, h, a);
    assert HartOk(s, h);
    if a.Return? && s.procs[a.p].state == Zombie && s.procs[a.p].parent == None {
      ForestReleased(s, t, a.p);
    } else {
      ForestFrame(s, t);
    }
  }

  lemma ForestSwitch(s: State, h: nat, p: nat, a: SwitchAct)
    requires ProcsOk(s) && ForestInv(s) && SwitchEnabled(s, h, p, a)
    ensures ForestInv(SwitchStep(s, h, p, a))
  {
    assert ProcOk(s, p);
    ForestOwn(s, SwitchStep(s, h, p, a), p);
  }

  lemma ForestLinkChild(s: State, h: nat, p: nat)
    requires ProcsOk(s) && ForkInv(s) && ForestInv(s) && LinkEnabled(s, h, p, LinkChild)
    ensures ForestInv(LinkStep(s, h, p, LinkChild))
  {
    var c := s.procs[p].pc.c;
    assert ProcOk(s, p) && MakeOk(s, p) && PidOk(s, p) && ProcOk(s, c);
    LinkIs(s, h, p, c);
    ForestLinked(s, LinkStep(s, h, p, LinkChild), p, c);
  }

  /** A NEW process c without a parent became a child of p, which is older. */
  lemma ForestLinked(s: State, t: State, p: nat, c: nat)
    requires ForestInv(s) && p < |s.procs| && c < |s.procs| && p != c && Alive(s.procs[p].state)
    requires s.procs[c].state == New && s.procs[c].pc.Born? && s.procs[p].pid < s.procs[c].pid
    requires !Exiting(s.procs[p].pc)
    requires t.procs == s.procs[c := s.procs[c].(parent := Some(p), state := Ready)]
                        [p := s.procs[p].(pc := Unwait(Some(s.procs[c].pid)))]
    ensures ForestInv(t)
  {
    forall k | 0 <= k < |s.procs|
      ensures ParentOk(t, k) && ExitOk(t, k)
    {
      assert ParentOk(s, k) && ExitOk(s, k);
    }
  }

  lemma ForestDiscard(s: State, h: nat, p: nat)
    requires ProcsOk(s) && ForkInv(s) && ForestInv(s) && MakeEnabled(s, h, p, DiscardChild)
    ensures ForestInv(MakeStep(s, h, p, DiscardChild))
  {
    assert ProcOk(s, p) && MakeOk(s, p);
    ForestReleased(s, MakeStep(s, h, p, DiscardChild), s.procs[p].pc.c);
  }

  lemma MakeForest(s: State, h: nat, p: nat, a: MakeAct, i: nat)
    requires MakeEnabled(s, h, p, a) && a != DiscardChild && i < |s.procs|
    requires s.procs[p].state == Running && (s.procs[i].state == New ==> s.procs[i].parent.None?)
    requires i == if a == ClaimSlot then s.procs[p].pc.i else s.procs[p].pc.c
    requires a != ClaimSlot ==> s.procs[i].state == New
    ensures var t := MakeStep(s, h, p, a);
            && |t.procs| == |s.procs| && t.procs == s.procs[i := t.procs[i]][p := t.procs[p]]
            && SameForest(s.procs[i], t.procs[i]) && SameForest(s.procs[p], t.procs[p])
  {
  }

  lemma ForestTwo(s: State, t: State, q: nat, p: nat)
    requires ForestInv(s) && p < |s.procs| == |t.procs| && q < |s.procs|
    requires t.procs == s.procs[q := t.procs[q]][p := t.procs[p]]
    requires SameForest(s.procs[q], t.procs[q]) && SameForest(s.procs[p], t.procs[p])
    ensures ForestInv(t)
  {
    ForestFrame(s, t);
  }

  lemma ForestMake(s: State, h: nat, p: nat, a: MakeAct)
    requires ProcsOk(s) && ForkInv(s) && ForestInv(s) && MakeEnabled(s, h, p, a)
    ensures ForestInv(MakeStep(s, h, p, a))
  {
    assert ProcOk(s, p) && MakeOk(s, p);
    var i := if a == ClaimSlot then s.procs[p].pc.i else s.procs[p].pc.c;
    if a == DiscardChild {
      ForestDiscard(s, h, p);
    } else if i < |s.procs| {
      assert ProcOk(s, i);
      MakeForest(s, h, p, a, i);
      ForestTwo(s, MakeStep(s, h, p, a), i, p);
    } else {
      ForestOwn(s, MakeStep(s, h, p, a), p);
    }
  }

  lemma ForestLink(s: State, h: nat, p: nat, a: LinkAct)
    requires ProcsOk(s) && ForkInv(s) && ForestInv(s) && LinkEnabled(s, h, p, a)
    ensures ForestInv(LinkStep(s, h, p, a))
  {
    if a == LinkChild {
      ForestLinkChild(s, h, p);
    } else {
      ForestOwn(s, LinkStep(s, h, p, a), p);
    }
  }

  lemma ForestWait(s: State, h: nat, p: nat, a: WaitAct)
    requires ProcsOk(s) && ForestInv(s) && WaitEnabled(s, h, p, a)
    ensures ForestInv(WaitStep(s, h, p, a))
  {
    assert ProcOk(s, p);
    var q := if a.ScanSlot? then s.procs[p].pc.i else 0;
    if a == ScanSlot(false) && s.procs[q].parent == Some(p) && s.procs[q].state == Zombie {
      ForestReap(s, h, p);
    } else {
      ForestOwn(s, WaitStep(s, h, p, a), p);
    }
  }

  lemma ForestReap(s: State, h: nat, p: nat)
    requires ProcsOk(s) && ForestInv(s) && WaitEnabled(s, h, p, ScanSlot(false))
    requires var q := s.procs[p].pc.i; s.procs[q].parent == Some(p) && s.procs[q].state == Zombie
    ensures ForestInv(WaitStep(s, h, p, ScanSlot(false)))
  {
    assert ProcOk(s, p);
    ForestReleased(s, WaitStep(s, h, p, ScanSlot(false)), s.procs[p].pc.i);
  }

  lemma ForestSleep(s: State, h: nat, p: nat, a: SleepAct)
    requires ProcsOk(s) && ForestInv(s) && SleepEnabled(s, h, p, a)
    ensures ForestInv(SleepStep(s, h, p, a))
  {
    assert ProcOk(s, p);
    ForestOwn(s, SleepStep(s, h, p, a), p);
  }

  /** The process itself moves on inside kexit(); what it claims there is checked by the caller. */
  lemma ForestMove(s: State, t: State, p: nat)
    requires ForestInv(s) && p < |s.procs| == |t.procs|
    requires t.procs == s.procs[p := s.procs[p].(pc := t.procs[p].pc)] && ExitOk(t, p)
    ensures ForestInv(t)
  {
    forall k | 0 <= k < |s.procs|
      ensures ParentOk(t, k) && ExitOk(t, k)
    {
      assert ParentOk(s, k) && ExitOk(s, k);
    }
  }

  lemma ForestFind(s: State, h: nat, p: nat, r: Option<nat>)
    requires ProcsOk(s) && ForkInv(s) && ForestInv(s) && ExitEnabled(s, h, p, FindReaper(r))
    ensures ForestInv(ExitStep(s, h, p, FindReaper(r)))
  {
    if r.Some? {
      assert PidOk(s, r.value) && ProcOk(s, r.value);
    }
    ForestMove(s, ExitStep(s, h, p, FindReaper(r)), p);
  }

  lemma ForestReparentReap(s: State, h: nat, p: nat)
    requires ProcsOk(s) && ForestInv(s) && ExitEnabled(s, h, p, ReparentSlot) && s.procs[p].pc.reaper.None?
    requires s.procs[s.procs[p].pc.i].parent == Some(p) && s.procs[s.procs[p].pc.i].state == Zombie
    ensures ForestInv(ExitStep(s, h, p, ReparentSlot))
  {
    var q := s.procs[p].pc.i;
    assert ProcOk(s, p) && ExitOk(s, p);
    ReapIs(s, h, p, q);
    ForestReaped(s, ExitStep(s, h, p, ReparentSlot), p, q);
  }

  /** A zombie child of p is gone, and p's search has passed it. */
  lemma ForestReaped(s: State, t: State, p: nat, q: nat)
    requires ForestInv(s) && p < |s.procs| && q < |s.procs| && p != q && s.procs[p].pc.Reparent?
    requires s.procs[p].pc.i == q && s.procs[p].pc.reaper.None? && s.procs[q].state == Zombie
    requires t.procs == s.procs[q := UNUSED_PROC.(hart := s.procs[q].hart)]
                        [p := s.procs[p].(pc := Reparent(q + 1, None, s.procs[p].pc.gave))]
    ensures ForestInv(t)
  {
    assert ExitOk(s, p);
    forall k | 0 <= k < |s.procs|
      ensures ParentOk(t, k) && ExitOk(t, k)
    {
      assert ParentOk(s, k) && ExitOk(s, k);
    }
  }

  /** kexit() handed slot q, a child of p, to the reaper. */
  ghost predicate HandedOver(s: State, t: State, p: nat, q: nat) {
    && p < |s.procs| && q < |s.procs| && p != q && s.procs[p].pc.Reparent? && q == s.procs[p].pc.i
    && |t.procs| == |s.procs|
    && s.procs[q].parent == Some(p) && (s.procs[q].state == Zombie ==> s.procs[p].pc.reaper.Some?)
    && s.procs[p].pc.reaper != Some(p)
    && t.procs == s.procs[q := s.procs[q].(parent := s.procs[p].pc.reaper)][p := t.procs[p]]
    && t.procs[p] == s.procs[p].(pc := Reparent(q + 1, s.procs[p].pc.reaper, s.procs[p].pc.gave
                                                || s.procs[q].state == Zombie))
  }

  lemma HandsOver(s: State, h: nat, p: nat, q: nat)
    requires ExitEnabled(s, h, p, ReparentSlot) && q == s.procs[p].pc.i && ParentOk(s, q) && ExitOk(s, p)
    requires s.procs[q].parent == Some(p) && (s.procs[q].state != Zombie || s.procs[p].pc.reaper.Some?)
    ensures HandedOver(s, ExitStep(s, h, p, ReparentSlot), p, q)
  {
  }

  /** Slot k after a child of p was handed to the reaper. */
  lemma ForestHandedOver(s: State, t: State, p: nat, q: nat, k: nat)
    requires HandedOver(s, t, p, q) && k < |s.procs| && ParentOk(s, k) && ExitOk(s, k) && ParentOk(s, q) && ExitOk(s, p)
    requires k != p ==> !ExitPhase(s.procs[k].pc)
    requires s.procs[p].pid >= 1
    ensures ParentOk(t, k) && ExitOk(t, k)
  {
  }

  lemma OnlyExiter(s: State, p: nat, k: nat)
    requires CoreInv(s) && p < |s.procs| && k < |s.procs| && k != p && HoldsWait(s.procs[p])
    ensures !ExitPhase(s.procs[k].pc)
  {
    assert ProcOk(s, k);
    if HoldsWait(s.procs[k]) {
      OneWaiter(s, k, p);
    }
  }

  lemma ForestHandOver(s: State, h: nat, p: nat)
    requires CoreInv(s) && ForkInv(s) && ForestInv(s) && ExitEnabled(s, h, p, ReparentSlot)
    requires var pc := s.procs[p].pc;
             s.procs[pc.i].parent == Some(p)
             && (s.procs[pc.i].state != Zombie || pc.reaper.Some?)
    ensures ForestInv(ExitStep(s, h, p, ReparentSlot))
  {
    var t, q := ExitStep(s, h, p, ReparentSlot), s.procs[p].pc.i;
    assert ParentOk(s, q) && ExitOk(s, p) && PidOk(s, p) && ProcOk(s, p);
    HandsOver(s, h, p, q);
    forall k | 0 <= k < |s.procs|
      ensures ParentOk(t, k) && ExitOk(t, k)
    {
      assert ParentOk(s, k) && ExitOk(s, k);
      if k != p {
        OnlyExiter(s, p, k);
      }
      ForestHandedOver(s, t, p, q, k);
    }
  }

  lemma ForestSkip(s: State, h: nat, p: nat)
    requires ForestInv(s) && ExitEnabled(s, h, p, ReparentSlot) && s.procs[s.procs[p].pc.i].parent != Some(p)
    ensures ForestInv(ExitStep(s, h, p, ReparentSlot))
  {
    assert ExitOk(s, p);
    ForestMove(s, ExitStep(s, h, p, ReparentSlot), p);
  }

  lemma ForestReparent(s: State, h: nat, p: nat)
    requires CoreInv(s) && ForkInv(s) && ForestInv(s) && ExitEnabled(s, h, p, ReparentSlot)
    ensures ForestInv(ExitStep(s, h, p, ReparentSlot))
  {
    var pc := s.procs[p].pc;
    if s.procs[pc.i].parent != Some(p) {
      ForestSkip(s, h, p);
    } else if s.procs[pc.i].state == Zombie && pc.reaper.None? {
      ForestReparentReap(s, h, p);
    } else {
      ForestHandOver(s, h, p);
    }
  }

  lemma ForestExit(s: State, h: nat, p: nat, a: ExitAct)
    requires CoreInv(s) && ForkInv(s) && ForestInv(s) && ExitEnabled(s, h, p, a)
    ensures ForestInv(ExitStep(s, h, p, a))
  {
    assert ProcOk(s, p) && ExitOk(s, p);
    match a
    case FindReaper(r) => ForestFind(s, h, p, r);
    case ReparentSlot => ForestReparent(s, h, p);
    case ReparentEnd => ForestMove(s, ExitStep(s, h, p, a), p);
    case _ => ForestOwn(s, ExitStep(s, h, p, a), p);
  }

  /** wakeup() passes slot i: the slot first, then the cursor of p. */
  lemma WakeIs(s: State, h: nat, p: nat, i: nat)
    requires DieEnabled(s, h, p, WakeSlot) && i == s.procs[p].pc.i
    ensures var t, u := DieStep(s, h, p, WakeSlot), s.procs[i := Woken(s.procs[i], OnProc(s.procs[p].pc.target))];
            t.procs == u[p := u[p].(pc := Wake(i + 1, s.procs[p].pc.target, s.procs[p].pc.last))]
  {
  }

  lemma ForestWake(s: State, h: nat, p: nat)
    requires ProcsOk(s) && ForestInv(s) && DieEnabled(s, h, p, WakeSlot)
    ensures ForestInv(DieStep(s, h, p, WakeSlot))
  {
    var i, target := s.procs[p].pc.i, s.procs[p].pc.target;
    var u := s.(procs := s.procs[i := Woken(s.procs[i], OnProc(target))]);
    WakeIs(s, h, p, i);
    assert ExitOk(s, p);
    ForestOwn(s, u, i);
    assert ExitOk(u, p);
    ForestMove(u, DieStep(s, h, p, WakeSlot), p);
  }

  lemma ForestZombie(s: State, h: nat, p: nat)
    requires CoreInv(s) && ForestInv(s) && DieEnabled(s, h, p, MarkZombie)
    ensures ForestInv(DieStep(s, h, p, MarkZombie))
  {
    var t := DieStep(s, h, p, MarkZombie);
    assert ExitOk(s, p);
    forall k | 0 <= k < |s.procs|
      ensures ParentOk(t, k) && ExitOk(t, k)
    {
      assert ParentOk(s, k) && ExitOk(s, k) && ProcOk(s, k);
      if ExitPhase(s.procs[k].pc) {
        OneWaiter(s, k, p);
      }
    }
  }

  lemma ForestDie(s: State, h: nat, p: nat, a: DieAct)
    requires CoreInv(s) && ForestInv(s) && DieEnabled(s, h, p, a)
    ensures ForestInv(DieStep(s, h, p, a))
  {
    assert ProcOk(s, p) && ExitOk(s, p) && ParentOk(s, p);
    match a
    case WakeSlot => ForestWake(s, h, p);
    case MarkZombie => ForestZombie(s, h, p);
    case ExitRel => ForestOwn(s, DieStep(s, h, p, a), p);
    case _ => ForestMove(s, DieStep(s, h, p, a), p);
  }

  lemma ForestTick(s: State, h: nat, a: TickAct)
    requires ProcsOk(s) && ForestInv(s) && TickEnabled(s, h, a)
    ensures ForestInv(TickStep(s, h, a))
  {
    ForestFrame(s, TickStep(s, h, a));
  }
}

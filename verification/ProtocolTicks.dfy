/** Every step keeps TickInv (tick sleepers are not forgotten) and IntrInv (interrupt nesting). */
module ProtocolTicks {
  import opened Options
  import opened ProtocolState
  import opened ProtocolInv
  import opened ProtocolCore

  predicate SameTick(x: Proc, y: Proc) {
    && (TickReason(y.pc).ForTicks? ==> TickReason(x.pc) == TickReason(y.pc))
    && (Committed(y) && TickReason(y.pc).ForTicks? ==> Committed(x))
  }

  lemma TickFrame(s: State, t: State)
    requires TickInv(s) && |s.procs| == |t.procs| && |s.harts| == |t.harts| && s.ticks == t.ticks
    requires |s.harts| > 0 ==> s.harts[0].clk == t.harts[0].clk
    requires forall q :: 0 <= q < |s.procs| ==> SameTick(s.procs[q], t.procs[q])
    ensures TickInv(t)
  {
    forall p | 0 <= p < |s.procs|
      ensures TickOk(t, p)
    {
      assert TickOk(s, p) && SameTick(s.procs[p], t.procs[p]);
    }
  }

  /** A step that leaves the clock alone and changes one slot, whose new claim the caller checks. */
  lemma TickOwn(s: State, t: State, p: nat)
    requires TickInv(s) && p < |s.procs| == |t.procs| && |s.harts| == |t.harts| && s.ticks == t.ticks
    requires |s.harts| > 0 ==> s.harts[0].clk == t.harts[0].clk
    requires t.procs == s.procs[p := t.procs[p]] && TickOk(t, p)
    ensures TickInv(t)
  {
    forall k | 0 <= k < |s.procs|
      ensures TickOk(t, k)
    {
      assert TickOk(s, k);
    }
  }

  /** A step that leaves the clock alone and changes two slots. */
  lemma TickTwo(s: State, t: State, q: nat, p: nat)
    requires TickInv(s) && p < |s.procs| == |t.procs| && q < |s.procs| && |s.harts| == |t.harts| && s.ticks == t.ticks
    requires |s.harts| > 0 ==> s.harts[0].clk == t.harts[0].clk
    requires t.procs == s.procs[q := t.procs[q]][p := t.procs[p]]
    requires SameTick(s.procs[q], t.procs[q]) && SameTick(s.procs[p], t.procs[p])
    ensures TickInv(t)
  {
    TickFrame(s, t);
  }

  lemma TicksSched(s: State, h: nat, a: SchedAct)
    requires TickInv(s) && SchedEnabled(s, h, a)
    ensures TickInv(SchedStep(s, h, a))
  {
    TickFrame(s, SchedStep(s, h, a));
  }

  lemma TicksSwitch(s: State, h: nat, p: nat, a: SwitchAct)
    requires ProcsOk(s) && TickInv(s) && SwitchEnabled(s, h, p, a)
    ensures TickInv(SwitchStep(s, h, p, a))
  {
    assert ProcOk(s, p) && TickOk(s, p);
    if a == Resume {
      TicksResume(s, h, p);
    } else {
      TickOwn(s, SwitchStep(s, h, p, a), p);
    }
  }

  lemma TicksResume(s: State, h: nat, p: nat)
    requires ProcsOk(s) && TickInv(s) && SwitchEnabled(s, h, p, Resume)
    ensures TickInv(SwitchStep(s, h, p, Resume))
  {
    assert ProcOk(s, p) && TickOk(s, p);
    ResumeChanges(s, h, p);
    TickTwo(s, SwitchStep(s, h, p, Resume), p, p);
  }

  lemma TicksMake(s: State, h: nat, p: nat, a: MakeAct)
    requires TickInv(s) && MakeEnabled(s, h, p, a)
    ensures TickInv(MakeStep(s, h, p, a))
  {
    if a == ClaimSlot {
      TicksClaim(s, h, p);
    } else if a == DiscardChild {
      TicksDiscard(s, h, p);
    } else {
      TickTwo(s, MakeStep(s, h, p, a), s.procs[p].pc.c, p);
    }
  }

  lemma TicksDiscard(s: State, h: nat, p: nat)
    requires TickInv(s) && MakeEnabled(s, h, p, DiscardChild)
    ensures TickInv(MakeStep(s, h, p, DiscardChild))
  {
    DiscardIs(s, h, p, s.procs[p].pc.c);
    TickTwo(s, MakeStep(s, h, p, DiscardChild), s.procs[p].pc.c, p);
  }

  lemma DiscardIs(s: State, h: nat, p: nat, c: nat)
    requires MakeEnabled(s, h, p, DiscardChild) && c == s.procs[p].pc.c
    ensures var t := MakeStep(s, h, p, DiscardChild);
            && |t.procs| == |s.procs| && t.procs == s.procs[c := t.procs[c]][p := t.procs[p]]
            && SameTick(s.procs[c], t.procs[c]) && SameTick(s.procs[p], t.procs[p]) && t.ticks == s.ticks
            && |t.harts| == |s.harts| && t.harts[0].clk == s.harts[0].clk
  {
  }

  lemma TicksClaim(s: State, h: nat, p: nat)
    requires TickInv(s) && MakeEnabled(s, h, p, ClaimSlot)
    ensures TickInv(MakeStep(s, h, p, ClaimSlot))
  {
    TickFrame(s, MakeStep(s, h, p, ClaimSlot));
  }

  lemma TicksLink(s: State, h: nat, p: nat, a: LinkAct)
    requires TickInv(s) && LinkEnabled(s, h, p, a)
    ensures TickInv(LinkStep(s, h, p, a))
  {
    TickFrame(s, LinkStep(s, h, p, a));
  }

  lemma TicksWait(s: State, h: nat, p: nat, a: WaitAct)
    requires TickInv(s) && WaitEnabled(s, h, p, a)
    ensures TickInv(WaitStep(s, h, p, a))
  {
    if a.ScanSlot? && !a.copyFails && s.procs[s.procs[p].pc.i].parent == Some(p)
      && s.procs[s.procs[p].pc.i].state == Zombie {
      TicksReap(s, h, p);
    } else if a.ScanSlot? {
      TicksScanOn(s, h, p, a.copyFails);
    } else {
      TickTwo(s, WaitStep(s, h, p, a), p, p);
    }
  }

  lemma TicksReap(s: State, h: nat, p: nat)
    requires TickInv(s) && WaitEnabled(s, h, p, ScanSlot(false))
    requires var q := s.procs[p].pc.i; s.procs[q].parent == Some(p) && s.procs[q].state == Zombie
    ensures TickInv(WaitStep(s, h, p, ScanSlot(false)))
  {
    TickTwo(s, WaitStep(s, h, p, ScanSlot(false)), s.procs[p].pc.i, p);
  }

  lemma TicksScanOn(s: State, h: nat, p: nat, copyFails: bool)
    requires TickInv(s) && WaitEnabled(s, h, p, ScanSlot(copyFails))
    requires var q := s.procs[p].pc.i; copyFails || s.procs[q].parent != Some(p) || s.procs[q].state != Zombie
    ensures TickInv(WaitStep(s, h, p, ScanSlot(copyFails)))
  {
    TickTwo(s, WaitStep(s, h, p, ScanSlot(copyFails)), p, p);
  }

  lemma TicksSleep(s: State, h: nat, p: nat, a: SleepAct)
    requires TickInv(s) && SleepEnabled(s, h, p, a)
    ensures TickInv(SleepStep(s, h, p, a))
  {
    assert TickOk(s, p);
    TickOwn(s, SleepStep(s, h, p, a), p);
  }

  lemma TicksExit(s: State, h: nat, p: nat, a: ExitAct)
    requires TickInv(s) && ExitEnabled(s, h, p, a)
    ensures TickInv(ExitStep(s, h, p, a))
  {
    if a == ReparentSlot {
      var pc := s.procs[p].pc;
      if s.procs[pc.i].parent == Some(p) && s.procs[pc.i].state == Zombie && pc.reaper.None? {
        TicksReapOrphan(s, h, p);
      } else {
        TicksHandOver(s, h, p);
      }
    } else {
      TickTwo(s, ExitStep(s, h, p, a), p, p);
    }
  }

  lemma TicksReapOrphan(s: State, h: nat, p: nat)
    requires TickInv(s) && ExitEnabled(s, h, p, ReparentSlot)
    requires var pc := s.procs[p].pc;
             s.procs[pc.i].parent == Some(p) && s.procs[pc.i].state == Zombie
             && pc.reaper.None?
    ensures TickInv(ExitStep(s, h, p, ReparentSlot))
  {
    TickTwo(s, ExitStep(s, h, p, ReparentSlot), s.procs[p].pc.i, p);
  }

  lemma TicksHandOver(s: State, h: nat, p: nat)
    requires TickInv(s) && ExitEnabled(s, h, p, ReparentSlot)
    requires var pc := s.procs[p].pc;
             s.procs[pc.i].parent != Some(p) || s.procs[pc.i].state != Zombie
             || pc.reaper.Some?
    ensures TickInv(ExitStep(s, h, p, ReparentSlot))
  {
    TickTwo(s, ExitStep(s, h, p, ReparentSlot), s.procs[p].pc.i, p);
  }

  lemma TicksDie(s: State, h: nat, p: nat, a: DieAct)
    requires TickInv(s) && DieEnabled(s, h, p, a)
    ensures TickInv(DieStep(s, h, p, a))
  {
    if a == WakeSlot {
      TicksWakeSlot(s, h, p);
    } else {
      TickTwo(s, DieStep(s, h, p, a), p, p);
    }
  }

  lemma TicksWakeSlot(s: State, h: nat, p: nat)
    requires TickInv(s) && DieEnabled(s, h, p, WakeSlot)
    ensures TickInv(DieStep(s, h, p, WakeSlot))
  {
    TickTwo(s, DieStep(s, h, p, WakeSlot), s.procs[p].pc.i, p);
  }

  /** The handler passes slot i: a sleeper there has been woken. */
  lemma TicksScan(s: State, h: nat)
    requires CoreInv(s) && TickInv(s) && TickEnabled(s, h, TickScan)
    ensures TickInv(TickStep(s, h, TickScan))
  {
    var t := TickStep(s, h, TickScan);
    var i := s.harts[h].clk.i;
    assert HartOk(s, h);
    Free(s, h, ProcLock(i));
    Unlocked(s, i);
    forall p | 0 <= p < |s.procs|
      ensures TickOk(t, p)
    {
      assert TickOk(s, p);
    }
  }

  lemma TicksTick(s: State, h: nat, a: TickAct)
    requires CoreInv(s) && TickInv(s) && TickEnabled(s, h, a)
    ensures TickInv(TickStep(s, h, a))
  {
    var t := TickStep(s, h, a);
    assert HartOk(s, h);
    match a
    case TickAcq(p) => TickOwn(s, t, p);
    case TickReturn(p) => TickOwn(s, t, p);
    case TickScan => TicksScan(s, h);
    case LeafAcq(k) => TickFrame(s, t);
    case LeafRel => TickFrame(s, t);
    case _ =>
      forall p | 0 <= p < |s.procs|
        ensures TickOk(t, p)
      {
        assert TickOk(s, p);
      }
  }

  // ---------------------------------------------------------------- interrupt nesting

  /** The change of a slot does not touch what other harts remember about it. */
  predicate SameIntr(s: State, t: State, h: nat, q: nat)
    requires q < |s.procs| == |t.procs|
  {
    var x, y := s.procs[q], t.procs[q];
    && SavedOk(y)
    && (x == y || (x.pc == y.pc && x.sw == y.sw && x.base == y.base) || !Current(s, q) || x.hart == h)
  }

  lemma IntrFrame(s: State, t: State, h: nat)
    requires CoreInv(s) && IntrInv(s) && |s.procs| == |t.procs| && h < |s.harts| == |t.harts|
    requires forall k :: 0 <= k < |s.harts| && k != h ==> t.harts[k] == s.harts[k]
    requires forall q :: 0 <= q < |s.procs| ==> t.procs[q] == s.procs[q] || SameIntr(s, t, h, q)
    requires IntrOk(t, h)
    ensures IntrInv(t)
  {
    forall k | 0 <= k < |s.harts|
      ensures IntrOk(t, k)
    {
      if k != h {
        assert IntrOk(s, k) && HartOk(s, k);
        if s.harts[k].mode.InProc? {
          var q := s.harts[k].mode.p;
          assert t.procs[q] == s.procs[q] || SameIntr(s, t, h, q);
        }
      }
    }
  }

  /** A step of hart h that changes at most slots q and p. */
  lemma IntrTwo(s: State, t: State, h: nat, q: nat, p: nat)
    requires CoreInv(s) && IntrInv(s) && p < |s.procs| == |t.procs| && q < |s.procs| && h < |s.harts| == |t.harts|
    requires t.harts == s.harts[h := t.harts[h]] && t.procs == s.procs[q := t.procs[q]][p := t.procs[p]]
    requires SameIntr(s, t, h, q) && SameIntr(s, t, h, p) && IntrOk(t, h)
    ensures IntrInv(t)
  {
    IntrFrame(s, t, h);
  }

  lemma IntrSched(s: State, h: nat, a: SchedAct)
    requires CoreInv(s) && IntrInv(s) && SchedEnabled(s, h, a)
    ensures IntrInv(SchedStep(s, h, a))
  {
    assert HartOk(s, h) && IntrOk(s, h);
    if a.SwtchIn? || a.Return? {
      assert ProcOk(s, a.p);
    }
    IntrFrame(s, SchedStep(s, h, a), h);
  }

  lemma IntrSwitch(s: State, h: nat, p: nat, a: SwitchAct)
    requires CoreInv(s) && IntrInv(s) && SwitchEnabled(s, h, p, a)
    ensures IntrInv(SwitchStep(s, h, p, a))
  {
    if a == Resume {
      IntrResume(s, h, p);
    } else {
      assert HartOk(s, h) && IntrOk(s, h) && ProcOk(s, p);
      IntrTwo(s, SwitchStep(s, h, p, a), h, p, p);
    }
  }

  lemma IntrResumeAsleep(s: State, h: nat, p: nat)
    requires CoreInv(s) && IntrInv(s) && SwitchEnabled(s, h, p, Resume) && s.procs[p].pc.Asleep?
    ensures IntrInv(SwitchStep(s, h, p, Resume))
  {
    assert HartOk(s, h) && IntrOk(s, h) && ProcOk(s, p);
    IntrTwo(s, SwitchStep(s, h, p, Resume), h, p, p);
  }

  lemma IntrResume(s: State, h: nat, p: nat)
    requires CoreInv(s) && IntrInv(s) && SwitchEnabled(s, h, p, Resume)
    ensures IntrInv(SwitchStep(s, h, p, Resume))
  {
    if s.procs[p].pc.Asleep? {
      IntrResumeAsleep(s, h, p);
    } else {
      assert HartOk(s, h) && IntrOk(s, h) && ProcOk(s, p);
      IntrTwo(s, SwitchStep(s, h, p, Resume), h, p, p);
    }
  }

  lemma IntrMake(s: State, h: nat, p: nat, a: MakeAct)
    requires CoreInv(s) && ForkInv(s) && IntrInv(s) && MakeEnabled(s, h, p, a)
    ensures IntrInv(MakeStep(s, h, p, a))
  {
    assert HartOk(s, h) && IntrOk(s, h) && ProcOk(s, p) && MakeOk(s, p);
    if a == ClaimSlot {
      IntrClaim(s, h, p);
    } else {
      assert ProcOk(s, s.procs[p].pc.c);
      IntrTwo(s, MakeStep(s, h, p, a), h, s.procs[p].pc.c, p);
    }
  }

  lemma IntrClaim(s: State, h: nat, p: nat)
    requires CoreInv(s) && IntrInv(s) && MakeEnabled(s, h, p, ClaimSlot)
    ensures IntrInv(MakeStep(s, h, p, ClaimSlot))
  {
    var i := s.procs[p].pc.i;
    assert HartOk(s, h) && IntrOk(s, h) && ProcOk(s, p);
    if i < |s.procs| {
      assert ProcOk(s, i);
      IntrTwo(s, MakeStep(s, h, p, ClaimSlot), h, i, p);
    } else {
      IntrTwo(s, MakeStep(s, h, p, ClaimSlot), h, p, p);
    }
  }

  lemma IntrLink(s: State, h: nat, p: nat, a: LinkAct)
    requires CoreInv(s) && ForkInv(s) && IntrInv(s) && LinkEnabled(s, h, p, a)
    ensures IntrInv(LinkStep(s, h, p, a))
  {
    assert HartOk(s, h) && IntrOk(s, h) && ProcOk(s, p) && MakeOk(s, p);
    if a == LinkChild {
      IntrLinkChild(s, h, p);
    } else {
      IntrFrame(s, LinkStep(s, h, p, a), h);
    }
  }

  lemma IntrLinkChild(s: State, h: nat, p: nat)
    requires CoreInv(s) && ForkInv(s) && IntrInv(s) && LinkEnabled(s, h, p, LinkChild)
    ensures IntrInv(LinkStep(s, h, p, LinkChild))
  {
    var c, t := s.procs[p].pc.c, LinkStep(s, h, p, LinkChild);
    assert HartOk(s, h) && IntrOk(s, h) && ProcOk(s, p) && MakeOk(s, p) && ProcOk(s, c);
    LinkIs(s, h, p, c);
    LinkHart(s, h, p, c);
    IntrTwo(s, t, h, c, p);
  }

  lemma LinkHart(s: State, h: nat, p: nat, c: nat)
    requires CoreInv(s) && LinkEnabled(s, h, p, LinkChild) && c == s.procs[p].pc.c && p != c && c < |s.procs|
    ensures var t := LinkStep(s, h, p, LinkChild);
            && t.harts == s.harts[h := s.harts[h].(intena := t.harts[h].intena)]
            && (s.harts[h].depth > 0 ==> t.harts[h].intena == s.harts[h].intena)
  {
    assert HartOk(s, h);
    Free(s, h, ProcLock(c));
    CritIs(s, h, ProcLock(c));
  }

  lemma IntrReap(s: State, h: nat, p: nat)
    requires CoreInv(s) && IntrInv(s) && WaitEnabled(s, h, p, ScanSlot(false))
    requires var q := s.procs[p].pc.i; s.procs[q].parent == Some(p) && s.procs[q].state == Zombie
    ensures IntrInv(WaitStep(s, h, p, ScanSlot(false)))
  {
    var q := s.procs[p].pc.i;
    assert HartOk(s, h) && IntrOk(s, h) && ProcOk(s, p);
    Free(s, h, ProcLock(q));
    Unlocked(s, q);
    IntrTwo(s, WaitStep(s, h, p, ScanSlot(false)), h, q, p);
  }

  lemma IntrScanOn(s: State, h: nat, p: nat, copyFails: bool)
    requires CoreInv(s) && IntrInv(s) && WaitEnabled(s, h, p, ScanSlot(copyFails))
    requires var q := s.procs[p].pc.i; copyFails || s.procs[q].parent != Some(p) || s.procs[q].state != Zombie
    ensures IntrInv(WaitStep(s, h, p, ScanSlot(copyFails)))
  {
    assert HartOk(s, h) && IntrOk(s, h) && ProcOk(s, p);
    IntrTwo(s, WaitStep(s, h, p, ScanSlot(copyFails)), h, p, p);
  }

  lemma IntrWait(s: State, h: nat, p: nat, a: WaitAct)
    requires CoreInv(s) && IntrInv(s) && WaitEnabled(s, h, p, a)
    ensures IntrInv(WaitStep(s, h, p, a))
  {
    if a.ScanSlot? && !a.copyFails && s.procs[s.procs[p].pc.i].parent == Some(p)
      && s.procs[s.procs[p].pc.i].state == Zombie {
      IntrReap(s, h, p);
    } else if a.ScanSlot? {
      IntrScanOn(s, h, p, a.copyFails);
    } else {
      assert HartOk(s, h) && IntrOk(s, h) && ProcOk(s, p);
      IntrTwo(s, WaitStep(s, h, p, a), h, p, p);
    }
  }

  lemma IntrSleep(s: State, h: nat, p: nat, a: SleepAct)
    requires CoreInv(s) && IntrInv(s) && SleepEnabled(s, h, p, a)
    ensures IntrInv(SleepStep(s, h, p, a))
  {
    assert HartOk(s, h) && IntrOk(s, h) && ProcOk(s, p);
    IntrFrame(s, SleepStep(s, h, p, a), h);
  }

  lemma IntrReparent(s: State, h: nat, p: nat)
    requires CoreInv(s) && ForestInv(s) && IntrInv(s) && ExitEnabled(s, h, p, ReparentSlot)
    ensures IntrInv(ExitStep(s, h, p, ReparentSlot))
  {
    if s.procs[s.procs[p].pc.i].parent == Some(p) {
      assert ParentOk(s, s.procs[p].pc.i);
      IntrTakeChild(s, h, p);
    } else {
      assert HartOk(s, h) && IntrOk(s, h) && ProcOk(s, p);
      IntrTwo(s, ExitStep(s, h, p, ReparentSlot), h, p, p);
    }
  }

  /** What ReparentSlot does with a child, released or handed over: the hart is left as it was but for intena. */
  lemma TakeChildIs(s: State, h: nat, p: nat, q: nat)
    requires ExitEnabled(s, h, p, ReparentSlot) && q == s.procs[p].pc.i && s.procs[q].parent == Some(p) && p != q
    requires s.harts[h].depth > 0 && !s.harts[h].sie
    ensures var t := ExitStep(s, h, p, ReparentSlot);
            && |t.procs| == |s.procs| && t.harts == s.harts
            && t.procs == s.procs[q := t.procs[q]][p := s.procs[p].(pc := t.procs[p].pc)] && t.procs[p].pc.Reparent?
            && ((t.procs[q] == UNUSED_PROC.(hart := s.procs[q].hart) && s.procs[q].state == Zombie)
                || t.procs[q] == s.procs[q].(parent := t.procs[q].parent))
  {
    assert PopOff(PushOff(s.harts[h])) == s.harts[h];
  }

  lemma IntrTakeChild(s: State, h: nat, p: nat)
    requires CoreInv(s) && IntrInv(s) && ExitEnabled(s, h, p, ReparentSlot)
    requires s.procs[s.procs[p].pc.i].parent == Some(p)
    requires s.procs[p].pc.i != p
    ensures IntrInv(ExitStep(s, h, p, ReparentSlot))
  {
    var q := s.procs[p].pc.i;
    assert HartOk(s, h) && IntrOk(s, h) && ProcOk(s, p) && SavedOk(s.procs[q]);
    Free(s, h, ProcLock(q));
    Unlocked(s, q);
    TakeChildIs(s, h, p, q);
    TakenIntr(s, ExitStep(s, h, p, ReparentSlot), h, q, p);
    IntrTwo(s, ExitStep(s, h, p, ReparentSlot), h, q, p);
  }

  lemma TakenIntr(s: State, t: State, h: nat, q: nat, p: nat)
    requires p < |s.procs| && q < |s.procs| && p != q && s.procs[p].hart == h && s.procs[p].sw == On
    requires |t.procs| == |s.procs| && t.procs[p] == s.procs[p].(pc := t.procs[p].pc) && SavedOk(s.procs[q])
    requires !Current(s, q) || s.procs[q].state != Zombie
    requires || t.procs[q] == s.procs[q].(parent := t.procs[q].parent)
             || (t.procs[q] == UNUSED_PROC.(hart := s.procs[q].hart) && s.procs[q].state == Zombie)
    requires h < |s.harts| && t.harts == s.harts && s.harts[h].mode == InProc(p) && IntrOk(s, h)
    requires s.procs[p].pc.Reparent? && t.procs[p].pc.Reparent?
    ensures SameIntr(s, t, h, q) && SameIntr(s, t, h, p) && IntrOk(t, h)
  {
  }

  lemma IntrExit(s: State, h: nat, p: nat, a: ExitAct)
    requires CoreInv(s) && ForestInv(s) && IntrInv(s) && ExitEnabled(s, h, p, a)
    ensures IntrInv(ExitStep(s, h, p, a))
  {
    if a == ReparentSlot {
      IntrReparent(s, h, p);
    } else {
      assert HartOk(s, h) && IntrOk(s, h) && ProcOk(s, p);
      IntrTwo(s, ExitStep(s, h, p, a), h, p, p);
    }
  }

  lemma IntrDie(s: State, h: nat, p: nat, a: DieAct)
    requires CoreInv(s) && IntrInv(s) && DieEnabled(s, h, p, a)
    ensures IntrInv(DieStep(s, h, p, a))
  {
    assert HartOk(s, h) && IntrOk(s, h) && ProcOk(s, p);
    IntrFrame(s, DieStep(s, h, p, a), h);
  }

  lemma IntrTickScan(s: State, h: nat)
    requires CoreInv(s) && IntrInv(s) && TickEnabled(s, h, TickScan)
    ensures IntrInv(TickStep(s, h, TickScan))
  {
    assert HartOk(s, h) && IntrOk(s, h);
    IntrFrame(s, TickStep(s, h, TickScan), h);
  }

  lemma IntrLeaf(s: State, h: nat, a: TickAct)
    requires CoreInv(s) && IntrInv(s) && TickEnabled(s, h, a) && (a.LeafAcq? || a.LeafRel?)
    ensures IntrInv(TickStep(s, h, a))
  {
    assert HartOk(s, h) && IntrOk(s, h);
    IntrFrame(s, TickStep(s, h, a), h);
  }

  lemma IntrTick(s: State, h: nat, a: TickAct)
    requires CoreInv(s) && IntrInv(s) && TickEnabled(s, h, a)
    ensures IntrInv(TickStep(s, h, a))
  {
    if a == TickScan {
      IntrTickScan(s, h);
    } else if a.LeafAcq? || a.LeafRel? {
      IntrLeaf(s, h, a);
    } else {
      assert HartOk(s, h) && IntrOk(s, h);
      IntrFrame(s, TickStep(s, h, a), h);
    }
  }
}

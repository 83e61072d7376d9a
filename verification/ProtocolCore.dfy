/** Every step keeps CoreInv: lock ownership, interrupt depth, and the agreement between harts,
    process states and code positions. */
module ProtocolCore {
  import opened Options
  import opened ProtocolState
  import opened ProtocolInv

  /** Slot q is untouched (but for its parent), or is settled by the caller and not on another hart. */
  predicate SlotFrame(s: State, t: State, h: nat, q: nat)
    requires q < |s.procs| == |t.procs|
  {
    var x, y := s.procs[q], t.procs[q];
    || (Current(s, q) == Current(t, q) && (x == y || (y == x.(parent := y.parent) && x.state != Unused
                                                      && x.state != New)))
    || (ProcOk(t, q) && (Current(s, q) ==> x.hart == h))
  }

  /** Another hart's obligations only depend on slots that the step left alone. */
  lemma OtherHart(s: State, t: State, h: nat, k: nat)
    requires CoreInv(s) && h < |s.harts| == |t.harts| && |s.procs| == |t.procs|
    requires k < |s.harts| && k != h && t.harts[k] == s.harts[k]
    requires forall q :: 0 <= q < |s.procs| ==> SlotFrame(s, t, h, q)
    ensures HartOk(t, k)
    ensures forall l :: MustHold(t, k, l) == MustHold(s, k, l)
  {
    assert HartOk(s, k);
    var m := s.harts[k].mode;
    if !m.Open? && !m.Idle? {
      assert Current(s, m.p) && s.procs[m.p].hart == k;
      assert SlotFrame(s, t, h, m.p);
    }
    OtherCode(s, t, h, k);
  }

  lemma OtherCode(s: State, t: State, h: nat, k: nat)
    requires h < |s.harts| == |t.harts| && |s.procs| == |t.procs|
    requires k < |s.harts| && k != h && t.harts[k] == s.harts[k] && HartOk(s, k)
    requires var m := s.harts[k].mode;
             !m.Open? && !m.Idle? ==>
               SlotFrame(s, t, h, m.p) && Current(s, m.p) && s.procs[m.p].hart == k
    ensures HartOk(t, k)
    ensures forall l :: MustHold(t, k, l) == MustHold(s, k, l)
  {
  }

  lemma SlotKept(s: State, t: State, h: nat, q: nat)
    requires q < |s.procs| == |t.procs| && ProcOk(s, q) && SlotFrame(s, t, h, q)
    ensures ProcOk(t, q)
  {
  }

  /** A step of hart h that settles its own hart, its own locks and the slots it touched keeps CoreInv. */
  lemma Frame(s: State, t: State, h: nat)
    requires CoreInv(s) && h < |s.harts| == |t.harts| && |s.procs| == |t.procs|
    requires !t.panicked
    requires forall k :: 0 <= k < |s.harts| && k != h ==> t.harts[k] == s.harts[k]
    requires forall q :: 0 <= q < |s.procs| ==> SlotFrame(s, t, h, q)
    requires HartOk(t, h)
    requires forall l :: (Holding(s, h, l) == Holding(t, h, l)) == (MustHold(s, h, l) == MustHold(t, h, l))
    requires forall l, k: nat :: k != h ==> Holding(t, k, l) == Holding(s, k, l)
    ensures CoreInv(t)
  {
    forall q | 0 <= q < |t.procs|
      ensures ProcOk(t, q)
    {
      assert ProcOk(s, q) && SlotFrame(s, t, h, q);
      SlotKept(s, t, h, q);
    }
    forall k | 0 <= k < |t.harts|
      ensures HartOk(t, k)
    {
      if k != h { OtherHart(s, t, h, k); }
    }
    forall k: nat, l | k < |t.harts|
      ensures Holding(t, k, l) == MustHold(t, k, l)
    {
      assert Holding(s, k, l) == MustHold(s, k, l);
      if k != h { OtherHart(s, t, h, k); }
    }
    forall l | l in t.held
      ensures t.held[l] < |t.harts|
    {
      assert Holding(t, t.held[l], l);
      assert t.held[l] != h ==> Holding(s, t.held[l], l);
    }
  }

  /** A step of hart h on the thread of p, which stays on h, that takes or drops at most lock l. */
  lemma FrameOne(s: State, t: State, h: nat, p: nat, l: LockId)
    requires CoreInv(s) && h < |s.harts| && p < |s.procs| == |t.procs| && |t.harts| == |s.harts| && !t.panicked
    requires s.harts[h].mode == InProc(p) && t.harts[h].mode == InProc(p)
    requires t.procs == s.procs[p := t.procs[p]] && t.harts == s.harts[h := t.harts[h]]
    requires HartOk(t, h) && ProcOk(t, p)
    requires t.held == s.held - {l} || (t.held == s.held[l := h] && Avail(s, h, l))
    requires l in s.held ==> s.held[l] == h
    requires forall k :: (Holding(s, h, k) == Holding(t, h, k)) == (MustHold(s, h, k) == MustHold(t, h, k))
    ensures CoreInv(t)
  {
    assert HartOk(s, h);
    Frame(s, t, h);
  }

  lemma Free(s: State, h: nat, l: LockId)
    requires CoreInv(s) && h < |s.harts| && Avail(s, h, l) && !MustHold(s, h, l)
    ensures l !in s.held
  {
    assert Holding(s, h, l) == MustHold(s, h, l);
  }

  /** A slot whose lock is free is not being switched: it is off every hart, or running normally. */
  lemma Unlocked(s: State, q: nat)
    requires CoreInv(s) && q < |s.procs| && ProcLock(q) !in s.held
    ensures ProcOk(s, q)
    ensures Current(s, q) ==> s.harts[s.procs[q].hart].mode == InProc(q) && s.procs[q].sw == On && !HoldsOwn(s.procs[q])
  {
    var k := s.procs[q].hart;
    assert ProcOk(s, q);
    if Current(s, q) {
      assert HartOk(s, k);
      assert !Holding(s, k, ProcLock(q));
      assert !MustHold(s, k, ProcLock(q));
    }
  }

  /** A critical section on a free lock changes nothing but the hart's intena. */
  lemma CritIs(s: State, h: nat, l: LockId)
    requires h < |s.harts| && l !in s.held && (s.harts[h].depth > 0 ==> !s.harts[h].sie)
    ensures Crit(s, h, l) == s.(harts := s.harts[h := s.harts[h].(intena := Crit(s, h, l).harts[h].intena)])
    ensures Crit(s, h, l).harts[h].intena == if s.harts[h].depth == 0 then s.harts[h].sie else s.harts[h].intena
  {
    assert s.held[l := h] - {l} == s.held;
  }

  lemma CritOk(s: State, h: nat, l: LockId)
    requires CoreInv(s) && h < |s.harts| && Avail(s, h, l) && !MustHold(s, h, l)
    ensures CoreInv(Crit(s, h, l))
    ensures Crit(s, h, l) == s.(harts := s.harts[h := s.harts[h].(intena := Crit(s, h, l).harts[h].intena)])
  {
    assert HartOk(s, h);
    Free(s, h, l);
    CritIs(s, h, l);
    IntenaOk(s, h, Crit(s, h, l).harts[h].intena);
  }

  lemma IntenaOk(s: State, h: nat, b: bool)
    requires CoreInv(s) && h < |s.harts|
    ensures CoreInv(s.(harts := s.harts[h := s.harts[h].(intena := b)]))
  {
    assert HartOk(s, h);
    Frame(s, s.(harts := s.harts[h := s.harts[h].(intena := b)]), h);
  }

  /** The thread of p may move to pc without taking or dropping a lock. */
  predicate CanMove(s: State, p: nat, pc: Pc)
    requires p < |s.procs|
  {
    var x, y := s.procs[p], s.procs[p].(pc := pc);
    && HoldsWait(x) == HoldsWait(y) && HoldsTicks(x) == HoldsTicks(y) && HoldsOwn(x) == HoldsOwn(y)
    && StateOk(y) && PcOk(|s.procs|, pc) && Exiting(x.pc) == Exiting(pc)
  }

  lemma MoveOk(s: State, h: nat, p: nat, pc: Pc)
    requires CoreInv(s) && At(s, h, p) && CanMove(s, p, pc)
    ensures CoreInv(Goto(s, p, pc))
  {
    assert HartOk(s, h);
    assert ProcOk(s, p);
    Frame(s, Goto(s, p, pc), h);
  }

  /** A slot that no hart is on may be given any consistent contents. */
  lemma SlotOk(s: State, q: nat, x: Proc)
    requires CoreInv(s) && q < |s.procs| && !Current(s, q) && x.hart == s.procs[q].hart
    requires ProcOk(SetProc(s, q, x), q)
    ensures CoreInv(SetProc(s, q, x))
  {
    assert HartOk(s, 0);
    if !s.harts[0].mode.Open? && !s.harts[0].mode.Idle? {
      assert Current(s, s.harts[0].mode.p);
    }
    Frame(s, SetProc(s, q, x), 0);
  }

  /** Changing, under its lock, a slot that no hart is on. */
  lemma CritSlotOk(s: State, h: nat, q: nat, x: Proc)
    requires CoreInv(s) && h < |s.harts| && q < |s.procs| && !Current(s, q) && x.hart == s.procs[q].hart
    requires Avail(s, h, ProcLock(q)) && !MustHold(s, h, ProcLock(q))
    requires ProcOk(SetProc(s, q, x), q)
    ensures var t := SetProc(Crit(s, h, ProcLock(q)), q, x);
            && CoreInv(t)
            && t == SetProc(s, q, x).(harts := t.harts)
            && t.harts == s.harts[h := s.harts[h].(intena := t.harts[h].intena)]
  {
    CritOk(s, h, ProcLock(q));
    SlotOk(Crit(s, h, ProcLock(q)), q, x);
  }

  lemma CritSlotMoveOk(s: State, h: nat, q: nat, x: Proc, p: nat, pc: Pc)
    requires CoreInv(s) && At(s, h, p) && CanMove(s, p, pc)
    requires q < |s.procs| && !Current(s, q) && x.hart == s.procs[q].hart
    requires Avail(s, h, ProcLock(q)) && !MustHold(s, h, ProcLock(q))
    requires ProcOk(SetProc(s, q, x), q)
    ensures CoreInv(Goto(SetProc(Crit(s, h, ProcLock(q)), q, x), p, pc))
  {
    assert HartOk(s, h);
    CritSlotOk(s, h, q, x);
    MoveOk(SetProc(Crit(s, h, ProcLock(q)), q, x), h, p, pc);
  }

  lemma CritMoveOk(s: State, h: nat, l: LockId, p: nat, pc: Pc)
    requires CoreInv(s) && At(s, h, p) && CanMove(s, p, pc)
    requires Avail(s, h, l) && !MustHold(s, h, l)
    ensures CoreInv(Goto(Crit(s, h, l), p, pc))
  {
    CritOk(s, h, l);
    MoveOk(Crit(s, h, l), h, p, pc);
  }

  /** A reaper may release a slot that no hart is on. */
  lemma ReapOk(s: State, h: nat, q: nat)
    requires CoreInv(s) && h < |s.harts| && q < |s.procs| && !Current(s, q)
    requires Avail(s, h, ProcLock(q)) && !MustHold(s, h, ProcLock(q))
    ensures var t := Rel(Release(Acq(s, h, ProcLock(q)), h, q), h, ProcLock(q));
            && CoreInv(t)
            && t == SetProc(s, q, UNUSED_PROC.(hart := s.procs[q].hart))
                    .(harts := t.harts, log := s.log + [s.procs[q].pid])
            && t.harts == s.harts[h := s.harts[h].(intena := t.harts[h].intena)]
  {
    var u := SetProc(Crit(s, h, ProcLock(q)), q, UNUSED_PROC.(hart := s.procs[q].hart));
    CritSlotOk(s, h, q, UNUSED_PROC.(hart := s.procs[q].hart));
    CountersOk(u, s.nextPid, s.log + [s.procs[q].pid]);
  }

  lemma ReapMoveOk(s: State, h: nat, q: nat, p: nat, pc: Pc)
    requires CoreInv(s) && At(s, h, p) && CanMove(s, p, pc)
    requires q < |s.procs| && !Current(s, q) && Avail(s, h, ProcLock(q)) && !MustHold(s, h, ProcLock(q))
    ensures CoreInv(Goto(Rel(Release(Acq(s, h, ProcLock(q)), h, q), h, ProcLock(q)), p, pc))
  {
    assert HartOk(s, h);
    ReapOk(s, h, q);
    MoveOk(Rel(Release(Acq(s, h, ProcLock(q)), h, q), h, ProcLock(q)), h, p, pc);
  }

  lemma CountersOk(s: State, nextPid: nat, log: seq<nat>)
    requires CoreInv(s)
    ensures CoreInv(s.(nextPid := nextPid, log := log))
  {
    assert HartOk(s, 0);
    Frame(s, s.(nextPid := nextPid, log := log), 0);
  }

  lemma CoreSkip(s: State, h: nat, i: nat)
    requires CoreInv(s) && SchedEnabled(s, h, Skip(i))
    ensures CoreInv(SchedStep(s, h, Skip(i)))
  {
    assert HartOk(s, h);
    Free(s, h, ProcLock(i));
    Unlocked(s, i);
    Frame(s, SchedStep(s, h, Skip(i)), h);
  }

  lemma CorePick(s: State, h: nat, i: nat)
    requires CoreInv(s) && SchedEnabled(s, h, Pick(i))
    ensures CoreInv(SchedStep(s, h, Pick(i)))
  {
    assert HartOk(s, h);
    Free(s, h, ProcLock(i));
    Unlocked(s, i);
    Frame(s, SchedStep(s, h, Pick(i)), h);
  }

  lemma CoreOpenIntr(s: State, h: nat)
    requires CoreInv(s) && SchedEnabled(s, h, OpenIntr)
    ensures CoreInv(SchedStep(s, h, OpenIntr))
  {
    assert HartOk(s, h);
    Frame(s, SchedStep(s, h, OpenIntr), h);
  }

  lemma CoreCloseIntr(s: State, h: nat)
    requires CoreInv(s) && SchedEnabled(s, h, CloseIntr)
    ensures CoreInv(SchedStep(s, h, CloseIntr))
  {
    assert HartOk(s, h);
    Frame(s, SchedStep(s, h, CloseIntr), h);
  }

  lemma CoreSwtchIn(s: State, h: nat, p: nat)
    requires CoreInv(s) && SchedEnabled(s, h, SwtchIn(p))
    ensures CoreInv(SchedStep(s, h, SwtchIn(p)))
  {
    assert HartOk(s, h);
    assert ProcOk(s, p);
    Frame(s, SchedStep(s, h, SwtchIn(p)), h);
  }

  lemma CoreReturn(s: State, h: nat, p: nat)
    requires CoreInv(s) && SchedEnabled(s, h, Return(p))
    ensures CoreInv(SchedStep(s, h, Return(p)))
  {
    assert HartOk(s, h);
    assert ProcOk(s, p);
    Frame(s, SchedStep(s, h, Return(p)), h);
  }

  lemma CorePreempt(s: State, h: nat, p: nat)
    requires CoreInv(s) && SwitchEnabled(s, h, p, Preempt)
    ensures CoreInv(SwitchStep(s, h, p, Preempt))
  {
    assert HartOk(s, h);
    assert ProcOk(s, p);
    Free(s, h, ProcLock(p));
    Frame(s, SwitchStep(s, h, p, Preempt), h);
  }

  lemma CoreSwtchOut(s: State, h: nat, p: nat)
    requires CoreInv(s) && SwitchEnabled(s, h, p, SwtchOut)
    ensures CoreInv(SwitchStep(s, h, p, SwtchOut))
  {
    assert HartOk(s, h);
    assert ProcOk(s, p);
    Frame(s, SwitchStep(s, h, p, SwtchOut), h);
  }

  /** What resuming the thread of p changes. */
  lemma ResumeIs(s: State, h: nat, p: nat)
    requires SwitchEnabled(s, h, p, Resume) && Holding(s, h, ProcLock(p)) && !s.panicked && !s.procs[p].pc.Dead?
    requires s.harts[h].depth == 1 && !s.harts[h].sie
    ensures var t := SwitchStep(s, h, p, Resume);
            && |t.harts| == |s.harts| && !t.panicked && t.held == s.held - {ProcLock(p)}
            && t.procs == s.procs[p := Resumed(s.procs[p])]
            && t.harts == s.harts[h := s.harts[h].(depth := 0, sie := t.harts[h].sie)]
  {
  }

  /** What Resume does to the slots and the clock. */
  lemma ResumeChanges(s: State, h: nat, p: nat)
    requires SwitchEnabled(s, h, p, Resume)
    ensures var t := SwitchStep(s, h, p, Resume);
            && t.procs == s.procs[p := Resumed(s.procs[p])] && t.ticks == s.ticks
            && |t.harts| == |s.harts| && t.harts[0].clk == s.harts[0].clk
  {
  }

  lemma ResumedOk(s: State, t: State, h: nat, p: nat)
    requires CoreInv(s) && Exec(s, h, p) && s.procs[p].sw == Back && |t.harts| == |s.harts| && !t.panicked
    requires t.held == s.held - {ProcLock(p)} && t.procs == s.procs[p := Resumed(s.procs[p])]
    requires t.harts == s.harts[h := s.harts[h].(depth := 0, sie := t.harts[h].sie)]
    ensures CoreInv(t)
  {
    assert HartOk(s, h) && ProcOk(s, p);
    assert Holding(s, h, ProcLock(p)) == MustHold(s, h, ProcLock(p));
    ResumedHart(s, t, h, p);
    ResumedProc(s, t, h, p);
    FrameOne(s, t, h, p, ProcLock(p));
  }

  lemma ResumedHart(s: State, t: State, h: nat, p: nat)
    requires Exec(s, h, p) && s.procs[p].sw == Back && HartOk(s, h) && ProcOk(s, p) && |t.harts| == |s.harts|
    requires t.procs == s.procs[p := Resumed(s.procs[p])]
    requires t.harts == s.harts[h := s.harts[h].(depth := 0, sie := t.harts[h].sie)]
    ensures HartOk(t, h)
    ensures forall l :: MustHold(t, h, l) == (MustHold(s, h, l) && l != ProcLock(p))
  {
  }

  lemma ResumedProc(s: State, t: State, h: nat, p: nat)
    requires Exec(s, h, p) && s.procs[p].sw == Back && s.procs[p].hart == h && ProcOk(s, p)
    requires t.procs == s.procs[p := Resumed(s.procs[p])] && |t.harts| == |s.harts|
    requires t.harts[h].mode == s.harts[h].mode
    ensures ProcOk(t, p)
  {
  }

  lemma CoreResume(s: State, h: nat, p: nat)
    requires CoreInv(s) && SwitchEnabled(s, h, p, Resume)
    ensures CoreInv(SwitchStep(s, h, p, Resume))
  {
    assert HartOk(s, h) && ProcOk(s, p);
    assert Holding(s, h, ProcLock(p)) == MustHold(s, h, ProcLock(p));
    ResumeIs(s, h, p);
    ResumedOk(s, SwitchStep(s, h, p, Resume), h, p);
  }

  lemma CoreEnter(s: State, h: nat, p: nat, to: Pc, fault: bool)
    requires CoreInv(s) && SwitchEnabled(s, h, p, Enter(to, fault))
    ensures CoreInv(SwitchStep(s, h, p, Enter(to, fault)))
  {
    assert HartOk(s, h);
    assert ProcOk(s, p);
    Frame(s, SwitchStep(s, h, p, Enter(to, fault)), h);
  }

  lemma CoreClaimSlot(s: State, h: nat, p: nat)
    requires CoreInv(s) && MakeEnabled(s, h, p, ClaimSlot)
    ensures CoreInv(MakeStep(s, h, p, ClaimSlot))
  {
    assert HartOk(s, h) && ProcOk(s, p);
    var i := s.procs[p].pc.i;
    if i == |s.procs| {
      MoveOk(s, h, p, Run);
    } else {
      Free(s, h, ProcLock(i));
      Unlocked(s, i);
      if s.procs[i].state == Unused {
        var x := s.procs[i].(state := New, creator := p);
        CritSlotMoveOk(s, h, i, x, p, TakePid(i));
      } else {
        CritMoveOk(s, h, ProcLock(i), p, Claim(i + 1));
      }
    }
  }

  lemma CoreAssignPid(s: State, h: nat, p: nat)
    requires CoreInv(s) && ForkInv(s) && MakeEnabled(s, h, p, AssignPid)
    ensures CoreInv(MakeStep(s, h, p, AssignPid))
  {
    var c := s.procs[p].pc.c;
    assert HartOk(s, h) && ProcOk(s, p) && ProcOk(s, c) && MakeOk(s, p);
    CoreNamed(s, h, p, c, s.procs[c].(pid := s.nextPid));
    CountersOk(Goto(SetProc(s, c, s.procs[c].(pid := s.nextPid)), p, Build(c)), s.nextPid + 1, s.log);
  }

  lemma CoreNamed(s: State, h: nat, p: nat, c: nat, y: Proc)
    requires CoreInv(s) && At(s, h, p) && s.procs[p].pc == TakePid(c) && c < |s.procs| && c != p
    requires s.procs[c].state == New && y == s.procs[c].(pid := y.pid)
    ensures CoreInv(Goto(SetProc(s, c, y), p, Build(c)))
  {
    assert HartOk(s, h) && ProcOk(s, p) && ProcOk(s, c);
    SlotOk(s, c, y);
    MoveOk(SetProc(s, c, y), h, p, Build(c));
  }

  lemma CoreBuildDone(s: State, h: nat, p: nat, k: bool, f: bool, ok: bool)
    requires CoreInv(s) && ForkInv(s) && MakeEnabled(s, h, p, BuildDone(k, f, ok))
    ensures CoreInv(MakeStep(s, h, p, BuildDone(k, f, ok)))
  {
    var c := s.procs[p].pc.c;
    assert HartOk(s, h) && ProcOk(s, p) && ProcOk(s, c) && MakeOk(s, p);
    var s1 := SetProc(s, c, s.procs[c].(kstack := k, tf := f, pt := ok));
    SlotOk(s, c, s.procs[c].(kstack := k, tf := f, pt := ok));
    MoveOk(s1, h, p, if ok then LinkLock(c) else Discard(c));
  }

  lemma CoreDiscardChild(s: State, h: nat, p: nat)
    requires CoreInv(s) && ForkInv(s) && MakeEnabled(s, h, p, DiscardChild)
    ensures CoreInv(MakeStep(s, h, p, DiscardChild))
  {
    var c := s.procs[p].pc.c;
    assert HartOk(s, h) && ProcOk(s, p) && ProcOk(s, c) && MakeOk(s, p);
    ReapMoveOk(s, h, c, p, Run);
  }

  lemma CoreLinkAcq(s: State, h: nat, p: nat)
    requires CoreInv(s) && LinkEnabled(s, h, p, LinkAcq)
    ensures CoreInv(LinkStep(s, h, p, LinkAcq))
  {
    assert HartOk(s, h);
    assert ProcOk(s, p);
    Free(s, h, WaitLock);
    Frame(s, LinkStep(s, h, p, LinkAcq), h);
  }

  lemma CoreLinkChild(s: State, h: nat, p: nat)
    requires CoreInv(s) && ForkInv(s) && LinkEnabled(s, h, p, LinkChild)
    ensures CoreInv(LinkStep(s, h, p, LinkChild))
  {
    var c := s.procs[p].pc.c;
    assert HartOk(s, h) && ProcOk(s, p) && ProcOk(s, c) && MakeOk(s, p);
    var x := s.procs[c].(parent := Some(p), state := Ready);
    CritSlotMoveOk(s, h, c, x, p, Unwait(Some(s.procs[c].pid)));
  }

  lemma CoreUnwaitRel(s: State, h: nat, p: nat)
    requires CoreInv(s) && LinkEnabled(s, h, p, UnwaitRel)
    ensures CoreInv(LinkStep(s, h, p, UnwaitRel))
  {
    assert HartOk(s, h);
    assert ProcOk(s, p);
    Frame(s, LinkStep(s, h, p, UnwaitRel), h);
  }

  lemma CoreWaitAcq(s: State, h: nat, p: nat)
    requires CoreInv(s) && WaitEnabled(s, h, p, WaitAcq)
    ensures CoreInv(WaitStep(s, h, p, WaitAcq))
  {
    assert HartOk(s, h);
    assert ProcOk(s, p);
    Free(s, h, WaitLock);
    Frame(s, WaitStep(s, h, p, WaitAcq), h);
  }

  /** wait() reaps a zombie child. */
  lemma CoreScanReap(s: State, h: nat, p: nat)
    requires CoreInv(s) && WaitEnabled(s, h, p, ScanSlot(false))
    requires s.procs[s.procs[p].pc.i].parent == Some(p) && s.procs[s.procs[p].pc.i].state == Zombie
    ensures CoreInv(WaitStep(s, h, p, ScanSlot(false)))
  {
    assert HartOk(s, h) && ProcOk(s, p);
    var q := s.procs[p].pc.i;
    Free(s, h, ProcLock(q));
    Unlocked(s, q);
    ReapMoveOk(s, h, q, p, Unwait(Some(s.procs[q].pid)));
  }

  lemma CoreScanSkip(s: State, h: nat, p: nat, copyFails: bool)
    requires CoreInv(s) && WaitEnabled(s, h, p, ScanSlot(copyFails)) && s.procs[s.procs[p].pc.i].parent != Some(p)
    ensures CoreInv(WaitStep(s, h, p, ScanSlot(copyFails)))
  {
    assert HartOk(s, h) && ProcOk(s, p);
    MoveOk(s, h, p, Scan(s.procs[p].pc.i + 1, s.procs[p].pc.have));
  }

  lemma CoreScanStay(s: State, h: nat, p: nat, copyFails: bool)
    requires CoreInv(s) && WaitEnabled(s, h, p, ScanSlot(copyFails)) && s.procs[s.procs[p].pc.i].parent == Some(p)
    requires s.procs[s.procs[p].pc.i].state != Zombie || copyFails
    ensures CoreInv(WaitStep(s, h, p, ScanSlot(copyFails)))
  {
    assert HartOk(s, h) && ProcOk(s, p);
    var i := s.procs[p].pc.i;
    var pc := if s.procs[i].state == Zombie then Unwait(None) else Scan(i + 1, true);
    ScanStayIs(s, h, p, copyFails, i, pc);
    CritMoveOk(s, h, ProcLock(i), p, pc);
  }

  lemma ScanStayIs(s: State, h: nat, p: nat, copyFails: bool, i: nat, pc: Pc)
    requires WaitEnabled(s, h, p, ScanSlot(copyFails)) && i == s.procs[p].pc.i && s.procs[i].parent == Some(p)
    requires (s.procs[i].state != Zombie || copyFails) && ProcOk(s, p)
    requires pc == if s.procs[i].state == Zombie then Unwait(None) else Scan(i + 1, true)
    ensures WaitStep(s, h, p, ScanSlot(copyFails)) == Goto(Crit(s, h, ProcLock(i)), p, pc) && CanMove(s, p, pc)
  {
  }

  lemma CoreScanSlot(s: State, h: nat, p: nat, copyFails: bool)
    requires CoreInv(s) && WaitEnabled(s, h, p, ScanSlot(copyFails))
    ensures CoreInv(WaitStep(s, h, p, ScanSlot(copyFails)))
  {
    var i := s.procs[p].pc.i;
    if s.procs[i].parent != Some(p) {
      CoreScanSkip(s, h, p, copyFails);
    } else if s.procs[i].state == Zombie && !copyFails {
      CoreScanReap(s, h, p);
    } else {
      CoreScanStay(s, h, p, copyFails);
    }
  }

  lemma CoreScanNone(s: State, h: nat, p: nat)
    requires CoreInv(s) && WaitEnabled(s, h, p, ScanNone)
    ensures CoreInv(WaitStep(s, h, p, ScanNone))
  {
    assert HartOk(s, h);
    assert ProcOk(s, p);
    Frame(s, WaitStep(s, h, p, ScanNone), h);
  }

  lemma CoreSleepAcq(s: State, h: nat, p: nat, r: Reason)
    requires CoreInv(s) && SleepEnabled(s, h, p, SleepAcq(r))
    ensures CoreInv(SleepStep(s, h, p, SleepAcq(r)))
  {
    assert HartOk(s, h);
    assert ProcOk(s, p);
    Free(s, h, ProcLock(p));
    SleepAcqOk(s, h, p, r);
    FrameOne(s, SleepStep(s, h, p, SleepAcq(r)), h, p, ProcLock(p));
  }

  lemma SleepAcqOk(s: State, h: nat, p: nat, r: Reason)
    requires SleepEnabled(s, h, p, SleepAcq(r)) && HartOk(s, h) && ProcOk(s, p) && ProcLock(p) !in s.held && !s.panicked
    ensures var t := SleepStep(s, h, p, SleepAcq(r));
            && !t.panicked && HartOk(t, h) && ProcOk(t, p) && t.held == s.held[ProcLock(p) := h]
            && t.procs == s.procs[p := t.procs[p]] && t.harts == s.harts[h := t.harts[h]]
            && t.harts[h].mode == s.harts[h].mode
            && forall l :: MustHold(t, h, l) == (MustHold(s, h, l) || l == ProcLock(p))
  {
  }

  lemma CoreSleepRel(s: State, h: nat, p: nat)
    requires CoreInv(s) && SleepEnabled(s, h, p, SleepRel)
    ensures CoreInv(SleepStep(s, h, p, SleepRel))
  {
    assert HartOk(s, h);
    assert ProcOk(s, p);
    Frame(s, SleepStep(s, h, p, SleepRel), h);
  }

  lemma CoreSleepMark(s: State, h: nat, p: nat)
    requires CoreInv(s) && SleepEnabled(s, h, p, SleepMark)
    ensures CoreInv(SleepStep(s, h, p, SleepMark))
  {
    assert HartOk(s, h);
    assert ProcOk(s, p);
    Frame(s, SleepStep(s, h, p, SleepMark), h);
  }

  lemma CoreRelockAcq(s: State, h: nat, p: nat)
    requires CoreInv(s) && SleepEnabled(s, h, p, RelockAcq)
    ensures CoreInv(SleepStep(s, h, p, RelockAcq))
  {
    assert HartOk(s, h);
    assert ProcOk(s, p);
    Free(s, h, SleepLock(s.procs[p].pc.r));
    Frame(s, SleepStep(s, h, p, RelockAcq), h);
  }

  lemma CoreFreeSpace(s: State, h: nat, p: nat)
    requires CoreInv(s) && ExitEnabled(s, h, p, FreeSpace)
    ensures CoreInv(ExitStep(s, h, p, FreeSpace))
  {
    assert HartOk(s, h);
    assert ProcOk(s, p);
    Frame(s, ExitStep(s, h, p, FreeSpace), h);
  }

  lemma CoreExitAcq(s: State, h: nat, p: nat)
    requires CoreInv(s) && ExitEnabled(s, h, p, ExitAcq)
    ensures CoreInv(ExitStep(s, h, p, ExitAcq))
  {
    assert HartOk(s, h);
    assert ProcOk(s, p);
    Free(s, h, WaitLock);
    Frame(s, ExitStep(s, h, p, ExitAcq), h);
  }

  lemma CoreFindReaper(s: State, h: nat, p: nat, r: Option<nat>)
    requires CoreInv(s) && ExitEnabled(s, h, p, FindReaper(r))
    ensures CoreInv(ExitStep(s, h, p, FindReaper(r)))
  {
    assert HartOk(s, h);
    assert ProcOk(s, p);
    Frame(s, ExitStep(s, h, p, FindReaper(r)), h);
  }

  lemma ParentChange(s: State, h: nat, q: nat, reaper: Option<nat>)
    requires CoreInv(s) && h < |s.harts| && q < |s.procs| && s.procs[q].state != Unused && s.procs[q].state != New
    ensures CoreInv(SetProc(s, q, s.procs[q].(parent := reaper)))
  {
    assert HartOk(s, h) && ProcOk(s, q);
    var t := SetProc(s, q, s.procs[q].(parent := reaper));
    assert forall l :: MustHold(s, h, l) == MustHold(t, h, l);
    Frame(s, t, h);
  }

  lemma CoreReparentChild(s: State, h: nat, p: nat, q: nat, reaper: Option<nat>, pc: Pc)
    requires CoreInv(s) && At(s, h, p) && CanMove(s, p, pc)
    requires q < |s.procs| && s.procs[q].state != Unused && s.procs[q].state != New
    requires Avail(s, h, ProcLock(q)) && !MustHold(s, h, ProcLock(q))
    ensures CoreInv(Goto(SetProc(Crit(s, h, ProcLock(q)), q, s.procs[q].(parent := reaper)), p, pc))
  {
    CritOk(s, h, ProcLock(q));
    ParentChange(Crit(s, h, ProcLock(q)), h, q, reaper);
    MoveOk(SetProc(Crit(s, h, ProcLock(q)), q, s.procs[q].(parent := reaper)), h, p, pc);
  }

  /** What ReparentSlot does with a zombie child when there is no reaper. */
  lemma ReapIs(s: State, h: nat, p: nat, q: nat)
    requires ExitEnabled(s, h, p, ReparentSlot) && q == s.procs[p].pc.i && s.procs[p].pc.reaper.None? && p != q
    requires s.procs[q].parent == Some(p) && s.procs[q].state == Zombie
    ensures var t := ExitStep(s, h, p, ReparentSlot);
            && t.procs == s.procs[q := UNUSED_PROC.(hart := s.procs[q].hart)]
                          [p := s.procs[p].(pc := Reparent(q + 1, None, s.procs[p].pc.gave))]
            && t.log == s.log + [s.procs[q].pid] && t.nextPid == s.nextPid
  {
  }

  /** What ClaimSlot does with a slot that is free, and with another. */
  lemma ClaimIs(s: State, h: nat, p: nat, i: nat)
    requires MakeEnabled(s, h, p, ClaimSlot) && i == s.procs[p].pc.i && i < |s.procs| && s.procs[p].state != Unused
    ensures MakeStep(s, h, p, ClaimSlot).procs ==
            if s.procs[i].state == Unused
            then s.procs[i := s.procs[i].(state := New, creator := p)][p := s.procs[p].(pc := TakePid(i))]
            else s.procs[p := s.procs[p].(pc := Claim(i + 1))]
  {
  }

  /** What ReparentSlot does with a slot it does not release. */
  lemma HandOverIs(s: State, h: nat, p: nat, q: nat)
    requires ExitEnabled(s, h, p, ReparentSlot) && q == s.procs[p].pc.i && p != q
    requires s.procs[q].parent != Some(p) || s.procs[q].state != Zombie || s.procs[p].pc.reaper.Some?
    ensures var t := ExitStep(s, h, p, ReparentSlot);
            && t.log == s.log && t.nextPid == s.nextPid && t.ticks == s.ticks && |t.procs| == |s.procs|
            && t.procs[p].pc.Reparent?
            && t.procs == s.procs[q := s.procs[q].(parent := t.procs[q].parent)][p := s.procs[p].(pc := t.procs[p].pc)]
  {
  }

  /** What LinkChild does. */
  lemma LinkIs(s: State, h: nat, p: nat, c: nat)
    requires LinkEnabled(s, h, p, LinkChild) && c == s.procs[p].pc.c && p != c
    ensures var t := LinkStep(s, h, p, LinkChild);
            && t.nextPid == s.nextPid && t.log == s.log
            && t.procs == s.procs[c := s.procs[c].(parent := Some(p), state := Ready)]
                        [p := s.procs[p].(pc := Unwait(Some(s.procs[c].pid)))]
  {
  }

  lemma CoreReparentReap(s: State, h: nat, p: nat)
    requires CoreInv(s) && ExitEnabled(s, h, p, ReparentSlot) && s.procs[p].pc.reaper.None?
    requires s.procs[s.procs[p].pc.i].parent == Some(p) && s.procs[s.procs[p].pc.i].state == Zombie
    ensures CoreInv(ExitStep(s, h, p, ReparentSlot))
  {
    assert HartOk(s, h) && ProcOk(s, p);
    var q, pc := s.procs[p].pc.i, Reparent(s.procs[p].pc.i + 1, None, s.procs[p].pc.gave);
    Free(s, h, ProcLock(q));
    Unlocked(s, q);
    ReapStepIs(s, h, p, q, pc);
    ReparentMoves(s, p, pc);
    ReapMoveOk(s, h, q, p, pc);
  }

  lemma ReparentMoves(s: State, p: nat, pc: Pc)
    requires p < |s.procs| && ProcOk(s, p) && s.procs[p].sw == On && s.procs[p].pc.Reparent?
    requires s.procs[p].pc.i < |s.procs|
    requires pc.Reparent? && pc.i == s.procs[p].pc.i + 1 && pc.reaper == s.procs[p].pc.reaper
    ensures CanMove(s, p, pc)
  {
  }

  lemma ReapStepIs(s: State, h: nat, p: nat, q: nat, pc: Pc)
    requires ExitEnabled(s, h, p, ReparentSlot) && q == s.procs[p].pc.i && s.procs[p].pc.reaper.None?
    requires s.procs[q].parent == Some(p) && s.procs[q].state == Zombie
    requires pc == Reparent(q + 1, None, s.procs[p].pc.gave)
    ensures ExitStep(s, h, p, ReparentSlot) ==
            Goto(Rel(Release(Acq(s, h, ProcLock(q)), h, q), h, ProcLock(q)), p, pc)
  {
  }

  lemma CoreReparentSkip(s: State, h: nat, p: nat)
    requires CoreInv(s) && ExitEnabled(s, h, p, ReparentSlot) && s.procs[s.procs[p].pc.i].parent != Some(p)
    ensures CoreInv(ExitStep(s, h, p, ReparentSlot))
  {
    assert HartOk(s, h) && ProcOk(s, p);
    var pc := s.procs[p].pc;
    MoveOk(s, h, p, Reparent(pc.i + 1, pc.reaper, pc.gave));
  }

  /** What ReparentSlot does with a child that is handed over. */
  lemma KeepIs(s: State, h: nat, p: nat, q: nat, pc: Pc)
    requires ExitEnabled(s, h, p, ReparentSlot) && q == s.procs[p].pc.i && s.procs[q].parent == Some(p)
    requires s.procs[q].state != Zombie || s.procs[p].pc.reaper.Some?
    requires pc == Reparent(q + 1, s.procs[p].pc.reaper, s.procs[p].pc.gave || s.procs[q].state == Zombie)
    ensures ExitStep(s, h, p, ReparentSlot) ==
            Goto(SetProc(Crit(s, h, ProcLock(q)), q, s.procs[q].(parent := s.procs[p].pc.reaper)), p, pc)
  {
  }

  lemma CoreReparentKeep(s: State, h: nat, p: nat)
    requires CoreInv(s) && ExitEnabled(s, h, p, ReparentSlot) && s.procs[s.procs[p].pc.i].parent == Some(p)
    requires s.procs[s.procs[p].pc.i].state != Zombie || s.procs[p].pc.reaper.Some?
    ensures CoreInv(ExitStep(s, h, p, ReparentSlot))
  {
    var q, reaper := s.procs[p].pc.i, s.procs[p].pc.reaper;
    var pc := Reparent(q + 1, reaper, s.procs[p].pc.gave || s.procs[q].state == Zombie);
    assert HartOk(s, h) && ProcOk(s, p) && ProcOk(s, q);
    CanReparent(s, h, p, q, pc);
    KeepIs(s, h, p, q, pc);
    CoreReparentChild(s, h, p, q, reaper, pc);
  }

  lemma CanReparent(s: State, h: nat, p: nat, q: nat, pc: Pc)
    requires At(s, h, p) && ProcOk(s, p) && s.procs[p].pc.Reparent? && q < |s.procs| && pc.Reparent? && pc.i == q + 1
    requires pc.reaper == s.procs[p].pc.reaper && s.procs[p].state != Unused && s.procs[p].state != New
    ensures CanMove(s, p, pc) && !MustHold(s, h, ProcLock(q))
  {
  }

  lemma CoreReparentSlot(s: State, h: nat, p: nat)
    requires CoreInv(s) && ExitEnabled(s, h, p, ReparentSlot)
    ensures CoreInv(ExitStep(s, h, p, ReparentSlot))
  {
    var pc := s.procs[p].pc;
    if s.procs[pc.i].parent != Some(p) {
      CoreReparentSkip(s, h, p);
    } else if s.procs[pc.i].state == Zombie && pc.reaper.None? {
      CoreReparentReap(s, h, p);
    } else {
      CoreReparentKeep(s, h, p);
    }
  }

  lemma CoreReparentEnd(s: State, h: nat, p: nat)
    requires CoreInv(s) && ExitEnabled(s, h, p, ReparentEnd)
    ensures CoreInv(ExitStep(s, h, p, ReparentEnd))
  {
    assert HartOk(s, h);
    assert ProcOk(s, p);
    Frame(s, ExitStep(s, h, p, ReparentEnd), h);
  }

  /** wakeup() on a slot whose lock is free. */
  lemma WokenOk(s: State, h: nat, q: nat, chan: Chan)
    requires CoreInv(s) && h < |s.harts| && q < |s.procs| && Avail(s, h, ProcLock(q)) && !MustHold(s, h, ProcLock(q))
    ensures CoreInv(SetProc(Crit(s, h, ProcLock(q)), q, Woken(s.procs[q], chan)))
    ensures var t := Crit(s, h, ProcLock(q));
            t == s.(harts := s.harts[h := s.harts[h].(intena := t.harts[h].intena)])
  {
    Free(s, h, ProcLock(q));
    Unlocked(s, q);
    CritOk(s, h, ProcLock(q));
    var s1 := Crit(s, h, ProcLock(q));
    if s.procs[q].chan == chan && s.procs[q].state == Waiting {
      SlotOk(s1, q, Woken(s.procs[q], chan));
    } else {
      assert SetProc(s1, q, Woken(s.procs[q], chan)).procs == s1.procs;
    }
  }

  lemma CoreWakeSlot(s: State, h: nat, p: nat)
    requires CoreInv(s) && DieEnabled(s, h, p, WakeSlot)
    ensures CoreInv(DieStep(s, h, p, WakeSlot))
  {
    assert HartOk(s, h) && ProcOk(s, p);
    var pc := s.procs[p].pc;
    WokenOk(s, h, pc.i, OnProc(pc.target));
    MoveOk(SetProc(Crit(s, h, ProcLock(pc.i)), pc.i, Woken(s.procs[pc.i], OnProc(pc.target))), h, p,
           Wake(pc.i + 1, pc.target, pc.last));
  }

  lemma CoreWakeEnd(s: State, h: nat, p: nat)
    requires CoreInv(s) && DieEnabled(s, h, p, WakeEnd)
    ensures CoreInv(DieStep(s, h, p, WakeEnd))
  {
    assert HartOk(s, h);
    assert ProcOk(s, p);
    Frame(s, DieStep(s, h, p, WakeEnd), h);
  }

  lemma CoreNotifyParent(s: State, h: nat, p: nat)
    requires CoreInv(s) && ForestInv(s) && DieEnabled(s, h, p, NotifyParent)
    ensures CoreInv(DieStep(s, h, p, NotifyParent))
  {
    assert HartOk(s, h) && ProcOk(s, p) && ParentOk(s, p);
    MoveOk(s, h, p, match s.procs[p].parent case Some(q) => Wake(0, q, true) case None => Die);
  }

  lemma CoreMarkZombie(s: State, h: nat, p: nat)
    requires CoreInv(s) && DieEnabled(s, h, p, MarkZombie)
    ensures CoreInv(DieStep(s, h, p, MarkZombie))
  {
    assert HartOk(s, h);
    assert ProcOk(s, p);
    Free(s, h, ProcLock(p));
    MarkZombieOk(s, h, p);
    FrameOne(s, DieStep(s, h, p, MarkZombie), h, p, ProcLock(p));
  }

  lemma MarkZombieOk(s: State, h: nat, p: nat)
    requires DieEnabled(s, h, p, MarkZombie) && HartOk(s, h) && ProcOk(s, p) && ProcLock(p) !in s.held && !s.panicked
    ensures var t := DieStep(s, h, p, MarkZombie);
            && !t.panicked && HartOk(t, h) && ProcOk(t, p) && t.held == s.held[ProcLock(p) := h]
            && t.procs == s.procs[p := t.procs[p]] && t.harts == s.harts[h := t.harts[h]]
            && t.harts[h].mode == s.harts[h].mode
            && forall l :: MustHold(t, h, l) == (MustHold(s, h, l) || l == ProcLock(p))
  {
  }

  lemma CoreExitRel(s: State, h: nat, p: nat)
    requires CoreInv(s) && DieEnabled(s, h, p, ExitRel)
    ensures CoreInv(DieStep(s, h, p, ExitRel))
  {
    assert HartOk(s, h);
    assert ProcOk(s, p);
    Frame(s, DieStep(s, h, p, ExitRel), h);
  }

  lemma CoreTickAcq(s: State, h: nat, p: nat)
    requires CoreInv(s) && TickEnabled(s, h, TickAcq(p))
    ensures CoreInv(TickStep(s, h, TickAcq(p)))
  {
    assert HartOk(s, h);
    assert ProcOk(s, p);
    Free(s, h, TicksLock);
    Frame(s, TickStep(s, h, TickAcq(p)), h);
  }

  lemma CoreTickReturn(s: State, h: nat, p: nat)
    requires CoreInv(s) && TickEnabled(s, h, TickReturn(p))
    ensures CoreInv(TickStep(s, h, TickReturn(p)))
  {
    assert HartOk(s, h);
    assert ProcOk(s, p);
    Frame(s, TickStep(s, h, TickReturn(p)), h);
  }

  lemma CoreTickFire(s: State, h: nat)
    requires CoreInv(s) && TickEnabled(s, h, TickFire)
    ensures CoreInv(TickStep(s, h, TickFire))
  {
    assert HartOk(s, h);
    Free(s, h, TicksLock);
    Frame(s, TickStep(s, h, TickFire), h);
  }

  /** The tick handler moves on to the next slot. */
  lemma ClockMoves(s: State, h: nat, i: nat, sie: bool)
    requires CoreInv(s) && h < |s.harts| && s.harts[h].clk == Tick(i, sie) && i < |s.procs|
    ensures CoreInv(s.(harts := s.harts[h := s.harts[h].(clk := Tick(i + 1, sie))]))
  {
    assert HartOk(s, h);
    Frame(s, s.(harts := s.harts[h := s.harts[h].(clk := Tick(i + 1, sie))]), h);
  }

  lemma CoreTickScan(s: State, h: nat)
    requires CoreInv(s) && TickEnabled(s, h, TickScan)
    ensures CoreInv(TickStep(s, h, TickScan))
  {
    var i := s.harts[h].clk.i;
    assert HartOk(s, h);
    WokenOk(s, h, i, OnTicks);
    ClockMoves(SetProc(Crit(s, h, ProcLock(i)), i, Woken(s.procs[i], OnTicks)), h, i, s.harts[h].clk.sie);
  }

  lemma CoreTickEnd(s: State, h: nat)
    requires CoreInv(s) && TickEnabled(s, h, TickEnd)
    ensures CoreInv(TickStep(s, h, TickEnd))
  {
    assert HartOk(s, h);
    Frame(s, TickStep(s, h, TickEnd), h);
  }

  lemma CoreLeafAcq(s: State, h: nat, k: Leaf)
    requires CoreInv(s) && TickEnabled(s, h, LeafAcq(k))
    ensures CoreInv(TickStep(s, h, LeafAcq(k)))
  {
    assert HartOk(s, h);
    Free(s, h, LeafLock(k));
    Frame(s, TickStep(s, h, LeafAcq(k)), h);
  }

  lemma CoreLeafRel(s: State, h: nat)
    requires CoreInv(s) && TickEnabled(s, h, LeafRel)
    ensures CoreInv(TickStep(s, h, LeafRel))
  {
    assert HartOk(s, h);
    Frame(s, TickStep(s, h, LeafRel), h);
  }
}

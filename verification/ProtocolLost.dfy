/** Every step keeps LostInv: no process sleeps in wait() past the exit of a child. */
module ProtocolLost {
  import opened Options
  import opened ProtocolState
  import opened ProtocolInv
  import opened ProtocolCore
  import opened ProtocolForest
  import opened ProtocolFork

  predicate Watch(pc: Pc) {
    pc.Scan? || pc == SleepBoth(ForChild) || pc.Wake? || pc.Die?
  }

  /** The change of a slot cannot create a waiter, a zombie or a claim, nor drop a pending wakeup. */
  predicate SameLost(x: Proc, y: Proc) {
    && (x.parent == y.parent || (y.state != Zombie && !y.pc.Die?))
    && (y.state == Zombie ==> x.state == Zombie)
    && (Awaits(y) ==> Awaits(x))
    && (x.pc == y.pc || (!Watch(y.pc) && !x.pc.Reparent? && !x.pc.Wake?))
  }

  lemma LostFrame(s: State, t: State)
    requires LostInv(s) && |s.procs| == |t.procs|
    requires forall q :: 0 <= q < |s.procs| ==> SameLost(s.procs[q], t.procs[q])
    ensures LostInv(t)
  {
    forall p | 0 <= p < |s.procs|
      ensures WatchOk(t, p)
    {
      assert WatchOk(s, p) && SameLost(s.procs[p], t.procs[p]);
      assert forall q :: 0 <= q < |s.procs| ==> (ZombieChild(t, p, q) ==> ZombieChild(s, p, q));
    }
    forall p, q | 0 <= p < |s.procs| && 0 <= q < |s.procs|
      ensures NoticeOk(t, p, q)
    {
      assert NoticeOk(s, p, q) && SameLost(s.procs[p], t.procs[p]) && SameLost(s.procs[q], t.procs[q]);
      if WillWake(s, p) {
        var m :| 0 <= m < |s.procs| && Waking(s.procs[m].pc, p);
        assert SameLost(s.procs[m], t.procs[m]);
        assert Waking(t.procs[m].pc, p);
      }
    }
  }

  lemma LostOwn(s: State, t: State, p: nat)
    requires LostInv(s) && p < |s.procs| == |t.procs|
    requires t.procs == s.procs[p := t.procs[p]] && SameLost(s.procs[p], t.procs[p])
    ensures LostInv(t)
  {
    LostFrame(s, t);
  }

  lemma LostTwo(s: State, t: State, q: nat, p: nat)
    requires LostInv(s) && p < |s.procs| == |t.procs| && q < |s.procs|
    requires t.procs == s.procs[q := t.procs[q]][p := t.procs[p]]
    requires SameLost(s.procs[q], t.procs[q]) && SameLost(s.procs[p], t.procs[p])
    ensures LostInv(t)
  {
    LostFrame(s, t);
  }

  /** The thread of p moves on without becoming a waiter; what it then claims is checked by the caller,
      and any wakeup it stops promising is no longer needed. */
  lemma LostMove(s: State, t: State, p: nat)
    requires LostInv(s) && p < |s.procs| == |t.procs|
    requires t.procs == s.procs[p := s.procs[p].(pc := t.procs[p].pc)]
    requires !Awaits(t.procs[p]) && WatchOk(t, p)
    requires forall k :: 0 <= k < |s.procs| && Waking(s.procs[p].pc, k) ==>
               Waking(t.procs[p].pc, k) || !Awaits(t.procs[k])
    ensures LostInv(t)
  {
    forall k | 0 <= k < |s.procs|
      ensures WatchOk(t, k)
    {
      assert WatchOk(s, k);
      assert forall q :: 0 <= q < |s.procs| ==> ZombieChild(t, k, q) == ZombieChild(s, k, q);
    }
    forall k, q | 0 <= k < |s.procs| && 0 <= q < |s.procs|
      ensures NoticeOk(t, k, q)
    {
      assert NoticeOk(s, k, q);
      if WillWake(s, k) {
        var m :| 0 <= m < |s.procs| && Waking(s.procs[m].pc, k);
        assert Waking(t.procs[m].pc, k) || !Awaits(t.procs[k]);
      }
    }
  }

  lemma LostSched(s: State, h: nat, a: SchedAct)
    requires CoreInv(s) && LostInv(s) && SchedEnabled(s, h, a)
    ensures LostInv(SchedStep(s, h, a))
  {
    if a.Return? {
      LostReturn(s, h, a.p);
    } else {
      LostFrame(s, SchedStep(s, h, a));
    }
  }

  lemma LostReturn(s: State, h: nat, p: nat)
    requires CoreInv(s) && LostInv(s) && SchedEnabled(s, h, Return(p))
    ensures LostInv(SchedStep(s, h, Return(p)))
  {
    assert HartOk(s, h) && ProcOk(s, p);
    LostOwn(s, SchedStep(s, h, Return(p)), p);
  }

  lemma LostSwitch(s: State, h: nat, p: nat, a: SwitchAct)
    requires ProcsOk(s) && LostInv(s) && SwitchEnabled(s, h, p, a)
    ensures LostInv(SwitchStep(s, h, p, a))
  {
    assert ProcOk(s, p);
    LostOwn(s, SwitchStep(s, h, p, a), p);
  }

  lemma ClaimLost(s: State, h: nat, p: nat, i: nat)
    requires MakeEnabled(s, h, p, ClaimSlot) && i < |s.procs| && s.procs[p].state == Running && i == s.procs[p].pc.i
    ensures var t := MakeStep(s, h, p, ClaimSlot);
            && |t.procs| == |s.procs| && t.procs == s.procs[i := t.procs[i]][p := t.procs[p]]
            && SameLost(s.procs[i], t.procs[i]) && SameLost(s.procs[p], t.procs[p])
  {
    ClaimIs(s, h, p, i);
  }

  lemma MakeLost(s: State, h: nat, p: nat, a: MakeAct, i: nat)
    requires MakeEnabled(s, h, p, a) && (a == AssignPid || a.BuildDone?) && s.procs[p].state == Running
    requires i == s.procs[p].pc.c && s.procs[i].state == New
    ensures var t := MakeStep(s, h, p, a);
            && |t.procs| == |s.procs| && t.procs == s.procs[i := t.procs[i]][p := t.procs[p]]
            && SameLost(s.procs[i], t.procs[i]) && SameLost(s.procs[p], t.procs[p])
  {
  }

  lemma DiscardLost(s: State, h: nat, p: nat, i: nat)
    requires MakeEnabled(s, h, p, DiscardChild) && s.procs[p].state == Running && i == s.procs[p].pc.c
    requires s.procs[i].state == New && s.procs[i].pc == Born
    ensures var t := MakeStep(s, h, p, DiscardChild);
            && |t.procs| == |s.procs| && t.procs == s.procs[i := t.procs[i]][p := t.procs[p]]
            && SameLost(s.procs[i], t.procs[i]) && SameLost(s.procs[p], t.procs[p])
  {
  }

  lemma LostMake(s: State, h: nat, p: nat, a: MakeAct)
    requires ProcsOk(s) && ForkInv(s) && LostInv(s) && MakeEnabled(s, h, p, a)
    ensures LostInv(MakeStep(s, h, p, a))
  {
    assert ProcOk(s, p) && MakeOk(s, p);
    var i := if a == ClaimSlot then s.procs[p].pc.i else s.procs[p].pc.c;
    if i < |s.procs| {
      assert ProcOk(s, i);
      if a == DiscardChild {
        DiscardLost(s, h, p, i);
      } else if a == ClaimSlot {
        ClaimLost(s, h, p, i);
      } else {
        MakeLost(s, h, p, a, i);
      }
      LostTwo(s, MakeStep(s, h, p, a), i, p);
    } else {
      LostOwn(s, MakeStep(s, h, p, a), p);
    }
  }

  lemma LostLinkChild(s: State, h: nat, p: nat)
    requires ProcsOk(s) && ForkInv(s) && LostInv(s) && LinkEnabled(s, h, p, LinkChild)
    ensures LostInv(LinkStep(s, h, p, LinkChild))
  {
    var c := s.procs[p].pc.c;
    assert ProcOk(s, p) && MakeOk(s, p) && ProcOk(s, c);
    LinkIs(s, h, p, c);
    LostLinked(s, LinkStep(s, h, p, LinkChild), p, c);
  }

  lemma LostLinked(s: State, t: State, p: nat, c: nat)
    requires LostInv(s) && p < |s.procs| && c < |s.procs| && p != c && s.procs[p].pc == Link(c)
    requires s.procs[c].pc == Born && s.procs[c].state == New
    requires t.procs == s.procs[c := s.procs[c].(parent := Some(p), state := Ready)]
                        [p := s.procs[p].(pc := Unwait(Some(s.procs[c].pid)))]
    ensures LostInv(t)
  {
    LostTwo(s, t, c, p);
  }

  lemma LostLink(s: State, h: nat, p: nat, a: LinkAct)
    requires ProcsOk(s) && ForkInv(s) && LostInv(s) && LinkEnabled(s, h, p, a)
    ensures LostInv(LinkStep(s, h, p, a))
  {
    if a == LinkChild {
      LostLinkChild(s, h, p);
    } else {
      LostOwn(s, LinkStep(s, h, p, a), p);
    }
  }

  lemma ScanReaps(s: State, h: nat, p: nat, q: nat)
    requires WaitEnabled(s, h, p, ScanSlot(false)) && s.procs[p].state == Running && q == s.procs[p].pc.i
    requires s.procs[q].parent == Some(p) && s.procs[q].state == Zombie && !s.procs[q].pc.Reparent?
    requires !s.procs[q].pc.Wake?
    ensures var t := WaitStep(s, h, p, ScanSlot(false));
            && |t.procs| == |s.procs| && t.procs == s.procs[q := t.procs[q]][p := t.procs[p]]
            && SameLost(s.procs[q], t.procs[q]) && SameLost(s.procs[p], t.procs[p])
  {
    ScanReapIs(s, h, p, q);
  }

  lemma ScanMoves(s: State, h: nat, p: nat, copyFails: bool, q: nat)
    requires WaitEnabled(s, h, p, ScanSlot(copyFails)) && q == s.procs[p].pc.i
    requires !(ZombieChild(s, p, q) && !copyFails)
    ensures var t := WaitStep(s, h, p, ScanSlot(copyFails));
            && t.procs == s.procs[p := s.procs[p].(pc := t.procs[p].pc)]
            && (t.procs[p].pc.Unwait? || (t.procs[p].pc.Scan? && t.procs[p].pc.i == q + 1 && !ZombieChild(s, p, q)))
  {
  }

  /** wait() moves past a slot that is no zombie child of p, or stops scanning. */
  lemma LostScan(s: State, h: nat, p: nat, copyFails: bool)
    requires ProcsOk(s) && LostInv(s) && WaitEnabled(s, h, p, ScanSlot(copyFails))
    ensures LostInv(WaitStep(s, h, p, ScanSlot(copyFails)))
  {
    var q := s.procs[p].pc.i;
    assert ProcOk(s, p) && WatchOk(s, p);
    var t := WaitStep(s, h, p, ScanSlot(copyFails));
    if ZombieChild(s, p, q) && !copyFails {
      assert ProcOk(s, q);
      ScanReaps(s, h, p, q);
      LostTwo(s, t, q, p);
    } else {
      ScanMoves(s, h, p, copyFails, q);
      LostScanned(s, t, p, q);
    }
  }

  lemma LostScanned(s: State, t: State, p: nat, q: nat)
    requires LostInv(s) && p < |s.procs| == |t.procs| && s.procs[p].pc.Scan? && q == s.procs[p].pc.i && q < |s.procs|
    requires t.procs == s.procs[p := s.procs[p].(pc := t.procs[p].pc)]
    requires t.procs[p].pc.Unwait? || (t.procs[p].pc.Scan? && t.procs[p].pc.i == q + 1 && !ZombieChild(s, p, q))
    ensures LostInv(t)
  {
    assert WatchOk(s, p);
    assert forall k :: 0 <= k < |s.procs| ==> ZombieChild(t, p, k) == ZombieChild(s, p, k);
    LostMove(s, t, p);
  }

  lemma LostWait(s: State, h: nat, p: nat, a: WaitAct)
    requires ProcsOk(s) && LostInv(s) && WaitEnabled(s, h, p, a)
    ensures LostInv(WaitStep(s, h, p, a))
  {
    match a
    case ScanSlot(copyFails) => LostScan(s, h, p, copyFails);
    case _ => LostMove(s, WaitStep(s, h, p, a), p);
  }

  /** sleep() lets go of wait_lock: p becomes a waiter, and has no zombie child. */
  lemma LostSleepRel(s: State, h: nat, p: nat)
    requires CoreInv(s) && LostInv(s) && SleepEnabled(s, h, p, SleepRel) && s.procs[p].pc.r == ForChild
    ensures LostInv(SleepStep(s, h, p, SleepRel))
  {
    var t := SleepStep(s, h, p, SleepRel);
    assert WatchOk(s, p) && ProcOk(s, p);
    forall k | 0 <= k < |s.procs|
      ensures WatchOk(t, k)
    {
      assert WatchOk(s, k) && ProcOk(s, k);
      assert forall q :: 0 <= q < |s.procs| ==> ZombieChild(t, k, q) == ZombieChild(s, k, q);
      if HoldsWait(s.procs[k]) {
        OneWaiter(s, k, p);
      }
    }
    forall k, q | 0 <= k < |s.procs| && 0 <= q < |s.procs|
      ensures NoticeOk(t, k, q)
    {
      assert NoticeOk(s, k, q) && ZombieChild(t, k, q) == ZombieChild(s, k, q);
      if WillWake(s, k) {
        var m :| 0 <= m < |s.procs| && Waking(s.procs[m].pc, k);
        assert Waking(t.procs[m].pc, k);
      }
    }
  }

  lemma LostSleepAcq(s: State, h: nat, p: nat, r: Reason)
    requires CoreInv(s) && LostInv(s) && SleepEnabled(s, h, p, SleepAcq(r))
    ensures LostInv(SleepStep(s, h, p, SleepAcq(r)))
  {
    var t := SleepStep(s, h, p, SleepAcq(r));
    assert ProcOk(s, p) && WatchOk(s, p);
    assert forall k :: 0 <= k < |s.procs| ==> ZombieChild(t, p, k) == ZombieChild(s, p, k);
    LostMove(s, t, p);
  }

  lemma LostSleep(s: State, h: nat, p: nat, a: SleepAct)
    requires CoreInv(s) && LostInv(s) && SleepEnabled(s, h, p, a)
    ensures LostInv(SleepStep(s, h, p, a))
  {
    var t := SleepStep(s, h, p, a);
    assert ProcOk(s, p) && WatchOk(s, p);
    match a
    case SleepAcq(r) => LostSleepAcq(s, h, p, r);
    case SleepRel =>
      if s.procs[p].pc.r == ForChild {
        LostSleepRel(s, h, p);
      } else {
        LostOwn(s, t, p);
      }
    case SleepMark => LostOwn(s, t, p);
    case RelockAcq => LostMove(s, t, p);
  }

  lemma HandOverWatch(s: State, t: State, p: nat, q: nat, k: nat)
    requires HandedOver(s, t, p, q) && k < |s.procs| && WatchOk(s, k)
    requires k != p ==> !Watch(s.procs[k].pc)
    ensures WatchOk(t, k)
  {
  }

  lemma HandOverNotice(s: State, t: State, p: nat, q: nat, k: nat, z: nat)
    requires HandedOver(s, t, p, q) && k < |s.procs| && z < |s.procs| && NoticeOk(s, k, z)
    ensures NoticeOk(t, k, z)
  {
    if Awaits(t.procs[k]) && ZombieChild(t, k, z) {
      if z == q {
        assert Waking(t.procs[p].pc, k);
      } else {
        var m :| 0 <= m < |s.procs| && Waking(s.procs[m].pc, k);
        assert Waking(t.procs[m].pc, k);
      }
    }
  }

  lemma OnlyWatcher(s: State, p: nat, k: nat)
    requires CoreInv(s) && p < |s.procs| && k < |s.procs| && k != p && HoldsWait(s.procs[p])
    ensures !Watch(s.procs[k].pc)
  {
    assert ProcOk(s, k);
    if HoldsWait(s.procs[k]) {
      OneWaiter(s, k, p);
    }
  }

  /** kexit() hands a live or zombie child to the reaper. */
  lemma LostHandOver(s: State, h: nat, p: nat)
    requires CoreInv(s) && ForestInv(s) && LostInv(s) && ExitEnabled(s, h, p, ReparentSlot)
    requires var pc := s.procs[p].pc;
             s.procs[pc.i].parent == Some(p)
             && (s.procs[pc.i].state != Zombie || pc.reaper.Some?)
    ensures LostInv(ExitStep(s, h, p, ReparentSlot))
  {
    var t, q := ExitStep(s, h, p, ReparentSlot), s.procs[p].pc.i;
    assert ParentOk(s, q) && ExitOk(s, p);
    HandsOver(s, h, p, q);
    forall k | 0 <= k < |s.procs|
      ensures WatchOk(t, k)
    {
      assert WatchOk(s, k);
      if k != p {
        OnlyWatcher(s, p, k);
      }
      HandOverWatch(s, t, p, q, k);
    }
    forall k, z | 0 <= k < |s.procs| && 0 <= z < |s.procs|
      ensures NoticeOk(t, k, z)
    {
      assert NoticeOk(s, k, z);
      HandOverNotice(s, t, p, q, k, z);
    }
  }

  lemma ReapsOrphan(s: State, h: nat, p: nat, q: nat)
    requires ExitEnabled(s, h, p, ReparentSlot) && q == s.procs[p].pc.i && s.procs[p].state == Running
    requires !s.procs[q].pc.Reparent? && !s.procs[q].pc.Wake?
    requires s.procs[q].parent == Some(p) && s.procs[q].state == Zombie && s.procs[p].pc.reaper.None?
    ensures var t := ExitStep(s, h, p, ReparentSlot);
            && |t.procs| == |s.procs| && p != q
            && t.procs == s.procs[q := t.procs[q]][p := s.procs[p].(pc := t.procs[p].pc)]
            && SameLost(s.procs[q], t.procs[q]) && t.procs[p].pc == Reparent(q + 1, None, s.procs[p].pc.gave)
  {
  }

  lemma LostReapOrphan(s: State, h: nat, p: nat)
    requires ProcsOk(s) && LostInv(s) && ExitEnabled(s, h, p, ReparentSlot)
    requires var pc := s.procs[p].pc;
             s.procs[pc.i].parent == Some(p) && s.procs[pc.i].state == Zombie
             && pc.reaper.None?
    ensures LostInv(ExitStep(s, h, p, ReparentSlot))
  {
    var t, q := ExitStep(s, h, p, ReparentSlot), s.procs[p].pc.i;
    assert ProcOk(s, p) && ProcOk(s, q);
    ReapsOrphan(s, h, p, q);
    var u := s.(procs := s.procs[q := t.procs[q]]);
    LostOwn(s, u, q);
    LostMove(u, t, p);
  }

  lemma LostReparent(s: State, h: nat, p: nat)
    requires CoreInv(s) && ForestInv(s) && LostInv(s) && ExitEnabled(s, h, p, ReparentSlot)
    ensures LostInv(ExitStep(s, h, p, ReparentSlot))
  {
    var pc := s.procs[p].pc;
    if s.procs[pc.i].parent != Some(p) {
      LostMove(s, ExitStep(s, h, p, ReparentSlot), p);
    } else if s.procs[pc.i].state == Zombie && pc.reaper.None? {
      LostReapOrphan(s, h, p);
    } else {
      LostHandOver(s, h, p);
    }
  }

  lemma LostExit(s: State, h: nat, p: nat, a: ExitAct)
    requires CoreInv(s) && ForestInv(s) && LostInv(s) && ExitEnabled(s, h, p, a)
    ensures LostInv(ExitStep(s, h, p, a))
  {
    assert ProcOk(s, p) && ExitOk(s, p);
    match a
    case ReparentSlot => LostReparent(s, h, p);
    case ReparentEnd => LostReparentEnd(s, h, p);
    case _ =>
      ExitChanges(s, h, p, a);
      LostOwn(s, ExitStep(s, h, p, a), p);
  }

  lemma ExitChanges(s: State, h: nat, p: nat, a: ExitAct)
    requires ExitEnabled(s, h, p, a) && a != ReparentSlot && a != ReparentEnd && s.procs[p].state == Running
    ensures var t := ExitStep(s, h, p, a);
            |t.procs| == |s.procs| && t.procs == s.procs[p := t.procs[p]] && SameLost(s.procs[p], t.procs[p])
  {
  }

  lemma LostReparentEnd(s: State, h: nat, p: nat)
    requires CoreInv(s) && ForestInv(s) && LostInv(s) && ExitEnabled(s, h, p, ReparentEnd)
    ensures LostInv(ExitStep(s, h, p, ReparentEnd))
  {
    assert ProcOk(s, p) && ExitOk(s, p);
    LostMove(s, ExitStep(s, h, p, ReparentEnd), p);
  }

  /** A slot whose lock is free no longer waits on `target` once wakeup() has passed it. */
  lemma WokenSlot(s: State, h: nat, p: nat, i: nat, target: nat)
    requires CoreInv(s) && DieEnabled(s, h, p, WakeSlot) && i == s.procs[p].pc.i && target == s.procs[p].pc.target
    ensures SameLost(s.procs[i], Woken(s.procs[i], OnProc(target)))
    ensures i == target ==> !Awaits(Woken(s.procs[i], OnProc(target)))
    ensures i == p ==> Woken(s.procs[i], OnProc(target)) == s.procs[i]
  {
    assert HartOk(s, h) && ProcOk(s, p);
    Free(s, h, ProcLock(i));
    Unlocked(s, i);
  }

  /** The cursor of wakeup() moves past slot i, which is not, or no longer, waiting. */
  lemma LostWakeMoves(u: State, t: State, p: nat, i: nat)
    requires LostInv(u) && p < |u.procs| == |t.procs| && u.procs[p].pc.Wake? && i == u.procs[p].pc.i && i < |u.procs|
    requires i == u.procs[p].pc.target ==> !Awaits(u.procs[i])
    requires t.procs == u.procs[p := u.procs[p].(pc := Wake(i + 1, u.procs[p].pc.target, u.procs[p].pc.last))]
    ensures LostInv(t)
  {
    assert WatchOk(u, p);
    LostMove(u, t, p);
  }

  /** wakeup() passes slot i: if i is the process to be woken, it no longer waits. */
  lemma LostWake(s: State, h: nat, p: nat)
    requires CoreInv(s) && LostInv(s) && DieEnabled(s, h, p, WakeSlot)
    ensures LostInv(DieStep(s, h, p, WakeSlot))
  {
    var i, target := s.procs[p].pc.i, s.procs[p].pc.target;
    var u := s.(procs := s.procs[i := Woken(s.procs[i], OnProc(target))]);
    WokenSlot(s, h, p, i, target);
    WakeIs(s, h, p, i);
    LostOwn(s, u, i);
    LostWakeMoves(u, DieStep(s, h, p, WakeSlot), p, i);
  }

  lemma LostZombie(s: State, h: nat, p: nat)
    requires CoreInv(s) && ForestInv(s) && LostInv(s) && DieEnabled(s, h, p, MarkZombie)
    ensures LostInv(DieStep(s, h, p, MarkZombie))
  {
    var t := DieStep(s, h, p, MarkZombie);
    assert WatchOk(s, p) && ParentOk(s, p) && ProcOk(s, p);
    forall k | 0 <= k < |s.procs|
      ensures WatchOk(t, k)
    {
      ZombieWatch(s, t, h, p, k);
    }
    forall k, q | 0 <= k < |s.procs| && 0 <= q < |s.procs|
      ensures NoticeOk(t, k, q)
    {
      assert NoticeOk(s, k, q);
      ZombieNotice(s, t, p, k, q);
    }
  }

  lemma ZombieWatch(s: State, t: State, h: nat, p: nat, k: nat)
    requires CoreInv(s) && LostInv(s) && At(s, h, p) && s.procs[p].pc == Die && k < |s.procs|
    requires t.procs == s.procs[p := s.procs[p].(state := Zombie, pc := ExitBoth)]
    ensures WatchOk(t, k)
  {
    assert WatchOk(s, k) && ProcOk(s, k) && ProcOk(s, p);
    if HoldsWait(s.procs[k]) {
      OneWaiter(s, k, p);
    }
  }

  lemma ZombieNotice(s: State, t: State, p: nat, k: nat, q: nat)
    requires p < |s.procs| && k < |s.procs| && q < |s.procs| && s.procs[p].pc == Die && NoticeOk(s, k, q)
    requires WatchOk(s, p)
    requires t.procs == s.procs[p := s.procs[p].(state := Zombie, pc := ExitBoth)] && ParentOk(s, p)
    ensures NoticeOk(t, k, q)
  {
    if WillWake(s, k) {
      var m :| 0 <= m < |s.procs| && Waking(s.procs[m].pc, k);
      assert Waking(t.procs[m].pc, k);
    }
  }

  lemma LostDie(s: State, h: nat, p: nat, a: DieAct)
    requires CoreInv(s) && ForestInv(s) && LostInv(s) && DieEnabled(s, h, p, a)
    ensures LostInv(DieStep(s, h, p, a))
  {
    assert ProcOk(s, p) && WatchOk(s, p) && ExitOk(s, p) && ParentOk(s, p);
    match a
    case WakeSlot => LostWake(s, h, p);
    case MarkZombie => LostZombie(s, h, p);
    case ExitRel => LostOwn(s, DieStep(s, h, p, a), p);
    case _ => LostMove(s, DieStep(s, h, p, a), p);
  }

  lemma LostTick(s: State, h: nat, a: TickAct)
    requires ProcsOk(s) && LostInv(s) && TickEnabled(s, h, a)
    ensures LostInv(TickStep(s, h, a))
  {
    match a
    case TickAcq(p) => LostOwn(s, TickStep(s, h, a), p);
    case TickReturn(p) => LostOwn(s, TickStep(s, h, a), p);
    case TickScan => LostTickScan(s, h);
    case _ => LostFrame(s, TickStep(s, h, a));
  }

  lemma LostTickScan(s: State, h: nat)
    requires LostInv(s) && TickEnabled(s, h, TickScan)
    ensures LostInv(TickStep(s, h, TickScan))
  {
    LostOwn(s, TickStep(s, h, TickScan), s.harts[h].clk.i);
  }
}

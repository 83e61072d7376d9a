/** Every step keeps ForkInv: NEW slots have one creator, pids are unique and never reused, and no
    pid is released twice. */
module ProtocolFork {
  import opened Options
  import opened ProtocolState
  import opened ProtocolInv
  import opened ProtocolCore

  predicate Settled(st: PState) {
    Alive(st) || st == Zombie
  }

  /** What ForkInv depends on in slot q is unchanged. */
  predicate SameFork(x: Proc, y: Proc) {
    && x.pid == y.pid && x.creator == y.creator
    && (Settled(x.state) <==> Settled(y.state)) && (x.state == New || y.state == New ==> x == y)
    && (x.pc == y.pc || (!Making(x.pc) && !Making(y.pc)))
  }

  lemma ForkFrame(s: State, t: State)
    requires ForkInv(s) && |s.procs| == |t.procs| && s.nextPid == t.nextPid && s.log == t.log
    requires forall q :: 0 <= q < |s.procs| ==> SameFork(s.procs[q], t.procs[q])
    ensures ForkInv(t)
  {
    forall p | 0 <= p < |s.procs|
      ensures MakeOk(t, p) && NewOk(t, p) && PidOk(t, p)
    {
      assert MakeOk(s, p) && NewOk(s, p) && PidOk(s, p);
      assert SameFork(s.procs[p], t.procs[p]);
    }
  }

  /** A step that changes one slot only. */
  lemma ForkOwn(s: State, t: State, p: nat)
    requires ForkInv(s) && p < |s.procs| == |t.procs| && s.nextPid == t.nextPid && s.log == t.log
    requires t.procs == s.procs[p := t.procs[p]] && SameFork(s.procs[p], t.procs[p])
    ensures ForkInv(t)
  {
    ForkFrame(s, t);
  }

  lemma ForkTwo(s: State, t: State, q: nat, p: nat)
    requires ForkInv(s) && p < |s.procs| == |t.procs| && q < |s.procs| && s.nextPid == t.nextPid && s.log == t.log
    requires t.procs == s.procs[q := t.procs[q]][p := t.procs[p]]
    requires SameFork(s.procs[q], t.procs[q]) && SameFork(s.procs[p], t.procs[p])
    ensures ForkInv(t)
  {
    ForkFrame(s, t);
  }

  /** releaseproc(q): the pid leaves the table and enters the log.  If q was NEW, its creator gives it up. */
  lemma ForkReleased(s: State, t: State, q: nat, p: nat)
    requires ForkInv(s) && |s.procs| == |t.procs| && s.nextPid == t.nextPid && q < |s.procs| && p < |s.procs|
    requires s.procs[q].pid >= 1 && t.log == s.log + [s.procs[q].pid]
    requires t.procs[q] == UNUSED_PROC.(hart := s.procs[q].hart)
    requires !Making(s.procs[q].pc)
    requires forall k :: 0 <= k < |s.procs| && k != q && k != p ==> SameFork(s.procs[k], t.procs[k])
    requires if s.procs[q].state == New
             then p != q && s.procs[p].pc == Discard(q) && t.procs[p] == s.procs[p].(pc := Run)
               && Settled(s.procs[p].state)
             else p == q || SameFork(s.procs[p], t.procs[p])
    ensures ForkInv(t)
  {
    assert PidOk(s, q);
    forall k | 0 <= k < |s.procs|
      ensures MakeOk(t, k) && NewOk(t, k) && PidOk(t, k)
    {
      assert k != q && k != p ==> SameFork(s.procs[k], t.procs[k]);
      ReleasedAt(s, t, q, p, k);
    }
    forall i | 0 <= i < |s.log|
      ensures s.log[i] != s.procs[q].pid
    {
      assert s.log[i] in s.log;
    }
  }

  lemma ReleasedAt(s: State, t: State, q: nat, p: nat, k: nat)
    requires ForkInv(s) && |s.procs| == |t.procs| && s.nextPid == t.nextPid && q < |s.procs| && p < |s.procs|
    requires k < |s.procs| && s.procs[q].pid >= 1 && t.log == s.log + [s.procs[q].pid]
    requires t.procs[q] == UNUSED_PROC.(hart := s.procs[q].hart) && !Making(s.procs[q].pc)
    requires forall j :: 0 <= j < |s.procs| && j != q && j != p ==> SameFork(s.procs[j], t.procs[j])
    requires if s.procs[q].state == New
             then p != q && s.procs[p].pc == Discard(q) && t.procs[p] == s.procs[p].(pc := Run)
                  && Settled(s.procs[p].state)
             else p == q || SameFork(s.procs[p], t.procs[p])
    ensures MakeOk(t, k) && NewOk(t, k) && PidOk(t, k)
  {
    assert MakeOk(s, k) && NewOk(s, k) && PidOk(s, k) && MakeOk(s, p);
    assert k != q && k != p ==> SameFork(s.procs[k], t.procs[k]);
  }

  lemma ForkSched(s: State, h: nat, a: SchedAct)
    requires CoreInv(s) && ForkInv(s) && SchedEnabled(s, h, a)
    ensures ForkInv(SchedStep(s, h, a))
  {
    var t := SchedStep(s, h, a);
    assert HartOk(s, h);
    match a
    case SwtchIn(p) => assert ProcOk(s, p); ForkFrame(s, t);
    case Return(p) => ForkReturn(s, h, p);
    case _ => ForkFrame(s, t);
  }

  lemma ForkReturn(s: State, h: nat, p: nat)
    requires CoreInv(s) && ForkInv(s) && SchedEnabled(s, h, Return(p))
    ensures ForkInv(SchedStep(s, h, Return(p)))
  {
    assert HartOk(s, h) && ProcOk(s, p) && PidOk(s, p);
    if s.procs[p].state == Zombie && s.procs[p].parent == None {
      ForkReturnReap(s, h, p);
    } else {
      ForkOwn(s, SchedStep(s, h, Return(p)), p);
    }
  }

  lemma ForkReturnReap(s: State, h: nat, p: nat)
    requires CoreInv(s) && ForkInv(s) && SchedEnabled(s, h, Return(p))
    requires s.procs[p].state == Zombie && s.procs[p].parent == None
    ensures ForkInv(SchedStep(s, h, Return(p)))
  {
    assert HartOk(s, h) && ProcOk(s, p) && PidOk(s, p);
    ForkReleased(s, SchedStep(s, h, Return(p)), p, p);
  }

  lemma ForkResume(s: State, h: nat, p: nat)
    requires ProcsOk(s) && ForkInv(s) && SwitchEnabled(s, h, p, Resume)
    ensures ForkInv(SwitchStep(s, h, p, Resume))
  {
    assert ProcOk(s, p);
    ForkOwn(s, SwitchStep(s, h, p, Resume), p);
  }

  lemma ForkSwitch(s: State, h: nat, p: nat, a: SwitchAct)
    requires ProcsOk(s) && ForkInv(s) && SwitchEnabled(s, h, p, a)
    ensures ForkInv(SwitchStep(s, h, p, a))
  {
    assert ProcOk(s, p);
    if a == Resume {
      ForkResume(s, h, p);
    } else {
      ForkOwn(s, SwitchStep(s, h, p, a), p);
    }
  }

  lemma ForkClaimNew(s: State, h: nat, p: nat)
    requires ProcsOk(s) && ForkInv(s) && MakeEnabled(s, h, p, ClaimSlot)
    requires s.procs[p].pc.i < |s.procs| && s.procs[s.procs[p].pc.i].state == Unused
    ensures ForkInv(MakeStep(s, h, p, ClaimSlot))
  {
    var i := s.procs[p].pc.i;
    assert ProcOk(s, p) && ProcOk(s, i);
    ClaimIs(s, h, p, i);
    ForkClaimed(s, MakeStep(s, h, p, ClaimSlot), p, i);
  }

  lemma ForkClaimed(s: State, t: State, p: nat, i: nat)
    requires ForkInv(s) && p < |s.procs| && i < |s.procs| && p != i && !Making(s.procs[p].pc)
    requires Settled(s.procs[p].state)
    requires s.procs[i] == UNUSED_PROC.(hart := s.procs[i].hart) && t.nextPid == s.nextPid && t.log == s.log
    requires t.procs == s.procs[i := s.procs[i].(state := New, creator := p)][p := s.procs[p].(pc := TakePid(i))]
    ensures ForkInv(t)
  {
    forall k | 0 <= k < |s.procs|
      ensures MakeOk(t, k) && NewOk(t, k) && PidOk(t, k)
      ensures t.procs[k].pid == s.procs[k].pid
    {
      assert MakeOk(s, k) && NewOk(s, k) && PidOk(s, k);
    }
  }

  lemma ForkClaim(s: State, h: nat, p: nat)
    requires ProcsOk(s) && ForkInv(s) && MakeEnabled(s, h, p, ClaimSlot)
    ensures ForkInv(MakeStep(s, h, p, ClaimSlot))
  {
    assert ProcOk(s, p);
    if s.procs[p].pc.i < |s.procs| && s.procs[s.procs[p].pc.i].state == Unused {
      ForkClaimNew(s, h, p);
    } else {
      ForkOwn(s, MakeStep(s, h, p, ClaimSlot), p);
    }
  }

  lemma ForkPidAt(s: State, h: nat, p: nat, k: nat)
    requires ProcsOk(s) && ForkInv(s) && MakeEnabled(s, h, p, AssignPid) && k < |s.procs|
    ensures var t := MakeStep(s, h, p, AssignPid); MakeOk(t, k) && NewOk(t, k) && PidOk(t, k)
    ensures k != s.procs[p].pc.c ==> MakeStep(s, h, p, AssignPid).procs[k].pid == s.procs[k].pid < s.nextPid
  {
    assert ProcOk(s, p) && MakeOk(s, p) && ProcOk(s, s.procs[p].pc.c);
    assert MakeOk(s, k) && NewOk(s, k) && PidOk(s, k);
    assert s.nextPid !in s.log;
  }

  lemma ForkPid(s: State, h: nat, p: nat)
    requires ProcsOk(s) && ForkInv(s) && MakeEnabled(s, h, p, AssignPid)
    ensures ForkInv(MakeStep(s, h, p, AssignPid))
  {
    var t := MakeStep(s, h, p, AssignPid);
    forall k | 0 <= k < |s.procs|
      ensures MakeOk(t, k) && NewOk(t, k) && PidOk(t, k)
      ensures k != s.procs[p].pc.c ==> t.procs[k].pid == s.procs[k].pid < s.nextPid
    {
      ForkPidAt(s, h, p, k);
    }
  }

  /** What BuildDone does to the two slots it touches. */
  ghost predicate Builds(s: State, t: State, p: nat, c: nat) {
    && p < |s.procs| && c < |s.procs| && p != c && |t.procs| == |s.procs| && t.nextPid == s.nextPid && t.log == s.log
    && t.procs == s.procs[c := t.procs[c]][p := t.procs[p]]
    && t.procs[c] == s.procs[c].(kstack := t.procs[c].kstack, tf := t.procs[c].tf, pt := t.procs[c].pt)
    && t.procs[p] == s.procs[p].(pc := t.procs[p].pc)
    && (t.procs[p].pc == Discard(c) || (t.procs[p].pc == LinkLock(c) && t.procs[c].kstack && t.procs[c].tf
                                        && t.procs[c].pt))
  }

  lemma ForkBuilds(s: State, h: nat, p: nat, a: MakeAct, c: nat)
    requires MakeEnabled(s, h, p, a) && a.BuildDone? && c == s.procs[p].pc.c && p != c
    ensures Builds(s, MakeStep(s, h, p, a), p, c)
  {
  }

  lemma ForkBuilt(s: State, t: State, p: nat, c: nat)
    requires ForkInv(s) && Builds(s, t, p, c) && s.procs[p].pc == Build(c) && s.procs[c].pc == Born
    ensures ForkInv(t)
  {
    assert MakeOk(s, p);
    forall k | 0 <= k < |s.procs|
      ensures MakeOk(t, k) && NewOk(t, k) && PidOk(t, k)
      ensures t.procs[k].pid == s.procs[k].pid
    {
      ForkBuiltAt(s, t, p, c, k);
    }
  }

  lemma ForkBuiltAt(s: State, t: State, p: nat, c: nat, k: nat)
    requires ForkInv(s) && Builds(s, t, p, c) && s.procs[p].pc == Build(c) && s.procs[c].pc == Born && k < |s.procs|
    ensures MakeOk(t, k) && NewOk(t, k) && PidOk(t, k) && t.procs[k].pid == s.procs[k].pid
  {
    assert MakeOk(s, p) && MakeOk(s, k) && NewOk(s, k) && PidOk(s, k);
  }

  lemma ForkBuild(s: State, h: nat, p: nat, a: MakeAct)
    requires ProcsOk(s) && ForkInv(s) && MakeEnabled(s, h, p, a) && a.BuildDone?
    ensures ForkInv(MakeStep(s, h, p, a))
  {
    var c := s.procs[p].pc.c;
    assert ProcOk(s, p) && MakeOk(s, p) && ProcOk(s, c);
    ForkBuilds(s, h, p, a, c);
    ForkBuilt(s, MakeStep(s, h, p, a), p, c);
  }

  lemma ForkLinkAcq(s: State, h: nat, p: nat)
    requires ProcsOk(s) && ForkInv(s) && LinkEnabled(s, h, p, LinkAcq)
    ensures ForkInv(LinkStep(s, h, p, LinkAcq))
  {
    var t := LinkStep(s, h, p, LinkAcq);
    assert ProcOk(s, p) && MakeOk(s, p);
    forall k | 0 <= k < |s.procs|
      ensures MakeOk(t, k) && NewOk(t, k) && PidOk(t, k)
      ensures t.procs[k].pid == s.procs[k].pid
    {
      assert MakeOk(s, k) && NewOk(s, k) && PidOk(s, k);
    }
  }

  lemma ForkLinked(s: State, t: State, p: nat, c: nat)
    requires ForkInv(s) && p < |s.procs| && c < |s.procs| && p != c && s.procs[p].pc == Link(c) && s.procs[c].pc == Born
    requires t.nextPid == s.nextPid && t.log == s.log && Settled(s.procs[p].state)
    requires t.procs == s.procs[c := s.procs[c].(parent := Some(p), state := Ready)]
                        [p := s.procs[p].(pc := Unwait(Some(s.procs[c].pid)))]
    ensures ForkInv(t)
  {
    assert MakeOk(s, p) && PidOk(s, c);
    forall k | 0 <= k < |s.procs|
      ensures MakeOk(t, k) && NewOk(t, k) && PidOk(t, k)
      ensures t.procs[k].pid == s.procs[k].pid
    {
      assert MakeOk(s, k) && NewOk(s, k) && PidOk(s, k);
    }
  }

  lemma ForkLinkChild(s: State, h: nat, p: nat)
    requires ProcsOk(s) && ForkInv(s) && LinkEnabled(s, h, p, LinkChild)
    ensures ForkInv(LinkStep(s, h, p, LinkChild))
  {
    var c := s.procs[p].pc.c;
    assert ProcOk(s, p) && MakeOk(s, p) && ProcOk(s, c);
    LinkIs(s, h, p, c);
    ForkLinked(s, LinkStep(s, h, p, LinkChild), p, c);
  }

  lemma ForkMake(s: State, h: nat, p: nat, a: MakeAct)
    requires ProcsOk(s) && ForkInv(s) && MakeEnabled(s, h, p, a)
    ensures ForkInv(MakeStep(s, h, p, a))
  {
    match a
    case ClaimSlot => ForkClaim(s, h, p);
    case AssignPid => ForkPid(s, h, p);
    case BuildDone(_, _, _) => ForkBuild(s, h, p, a);
    case DiscardChild =>
      assert ProcOk(s, p) && MakeOk(s, p) && ProcOk(s, s.procs[p].pc.c);
      ForkReleased(s, MakeStep(s, h, p, a), s.procs[p].pc.c, p);
  }

  lemma ForkLink(s: State, h: nat, p: nat, a: LinkAct)
    requires ProcsOk(s) && ForkInv(s) && LinkEnabled(s, h, p, a)
    ensures ForkInv(LinkStep(s, h, p, a))
  {
    match a
    case LinkAcq => ForkLinkAcq(s, h, p);
    case LinkChild => ForkLinkChild(s, h, p);
    case UnwaitRel =>
      assert ProcOk(s, p);
      ForkOwn(s, LinkStep(s, h, p, a), p);
  }

  lemma ForkScan(s: State, h: nat, p: nat)
    requires ProcsOk(s) && ForkInv(s) && WaitEnabled(s, h, p, ScanSlot(false))
    requires s.procs[s.procs[p].pc.i].parent == Some(p) && s.procs[s.procs[p].pc.i].state == Zombie
    ensures ForkInv(WaitStep(s, h, p, ScanSlot(false)))
  {
    var q := s.procs[p].pc.i;
    assert ProcOk(s, p) && ProcOk(s, q) && PidOk(s, q);
    ScanReapIs(s, h, p, q);
    ForkReaped(s, WaitStep(s, h, p, ScanSlot(false)), q, p, Unwait(Some(s.procs[q].pid)));
  }

  lemma ScanReapIs(s: State, h: nat, p: nat, q: nat)
    requires WaitEnabled(s, h, p, ScanSlot(false)) && q == s.procs[p].pc.i && p != q
    requires s.procs[q].parent == Some(p) && s.procs[q].state == Zombie
    ensures var t := WaitStep(s, h, p, ScanSlot(false));
            && t.nextPid == s.nextPid && t.log == s.log + [s.procs[q].pid]
            && t.procs == s.procs[q := UNUSED_PROC.(hart := s.procs[q].hart)]
                          [p := s.procs[p].(pc := Unwait(Some(s.procs[q].pid)))]
  {
  }

  lemma ForkReaped(s: State, t: State, q: nat, p: nat, pc: Pc)
    requires ForkInv(s) && q < |s.procs| && p < |s.procs| && p != q && s.procs[q].state == Zombie && s.procs[q].pid >= 1
    requires !Making(s.procs[q].pc) && !Making(s.procs[p].pc) && !Making(pc) && s.procs[p].state == Running
    requires t.nextPid == s.nextPid && t.log == s.log + [s.procs[q].pid]
    requires t.procs == s.procs[q := UNUSED_PROC.(hart := s.procs[q].hart)][p := s.procs[p].(pc := pc)]
    ensures ForkInv(t)
  {
    ForkReleased(s, t, q, p);
  }

  lemma ForkWait(s: State, h: nat, p: nat, a: WaitAct)
    requires ProcsOk(s) && ForkInv(s) && WaitEnabled(s, h, p, a)
    ensures ForkInv(WaitStep(s, h, p, a))
  {
    assert ProcOk(s, p);
    var q := if a.ScanSlot? then s.procs[p].pc.i else 0;
    if a == ScanSlot(false) && s.procs[q].parent == Some(p) && s.procs[q].state == Zombie {
      ForkScan(s, h, p);
    } else {
      WaitChanges(s, h, p, a);
      ForkOwn(s, WaitStep(s, h, p, a), p);
    }
  }

  lemma WaitChanges(s: State, h: nat, p: nat, a: WaitAct)
    requires WaitEnabled(s, h, p, a)
    requires a == ScanSlot(false) ==>
               s.procs[s.procs[p].pc.i].parent != Some(p) || s.procs[s.procs[p].pc.i].state != Zombie
    ensures var t := WaitStep(s, h, p, a);
            && t.procs == s.procs[p := s.procs[p].(pc := t.procs[p].pc)] && !Making(t.procs[p].pc)
            && t.nextPid == s.nextPid && t.log == s.log
  {
    if a.ScanSlot? {
      ScanChanges(s, h, p, a.copyFails, s.procs[p].pc.i);
    }
  }

  /** What a scan does that reaps nobody. */
  lemma ScanChanges(s: State, h: nat, p: nat, copyFails: bool, q: nat)
    requires WaitEnabled(s, h, p, ScanSlot(copyFails)) && q == s.procs[p].pc.i
    requires copyFails || s.procs[q].parent != Some(p) || s.procs[q].state != Zombie
    ensures var t := WaitStep(s, h, p, ScanSlot(copyFails));
            && t.procs == s.procs[p := s.procs[p].(pc := t.procs[p].pc)]
            && (t.procs[p].pc.Scan? || t.procs[p].pc.Unwait?) && t.nextPid == s.nextPid && t.log == s.log
  {
  }

  lemma ForkSleep(s: State, h: nat, p: nat, a: SleepAct)
    requires ProcsOk(s) && ForkInv(s) && SleepEnabled(s, h, p, a)
    ensures ForkInv(SleepStep(s, h, p, a))
  {
    assert ProcOk(s, p);
    SleepChanges(s, h, p, a);
    ForkOwn(s, SleepStep(s, h, p, a), p);
  }

  lemma SleepChanges(s: State, h: nat, p: nat, a: SleepAct)
    requires SleepEnabled(s, h, p, a) && s.procs[p].state == Running
    ensures var t := SleepStep(s, h, p, a);
            && t.procs == s.procs[p := t.procs[p]] && t.nextPid == s.nextPid && t.log == s.log
            && |t.procs| == |s.procs| && SameFork(s.procs[p], t.procs[p])
  {
  }

  lemma ForkReparentReap(s: State, h: nat, p: nat)
    requires ProcsOk(s) && ForkInv(s) && ExitEnabled(s, h, p, ReparentSlot) && s.procs[p].pc.reaper.None?
    requires s.procs[s.procs[p].pc.i].parent == Some(p) && s.procs[s.procs[p].pc.i].state == Zombie
    ensures ForkInv(ExitStep(s, h, p, ReparentSlot))
  {
    var q := s.procs[p].pc.i;
    assert ProcOk(s, p) && ProcOk(s, q) && PidOk(s, q);
    ReapIs(s, h, p, q);
    ForkReaped(s, ExitStep(s, h, p, ReparentSlot), q, p, Reparent(q + 1, None, s.procs[p].pc.gave));
  }

  lemma ForkReparent(s: State, h: nat, p: nat)
    requires ProcsOk(s) && ForkInv(s) && ExitEnabled(s, h, p, ReparentSlot)
    ensures ForkInv(ExitStep(s, h, p, ReparentSlot))
  {
    var pc := s.procs[p].pc;
    if s.procs[pc.i].parent == Some(p) && s.procs[pc.i].state == Zombie && pc.reaper.None? {
      ForkReparentReap(s, h, p);
    } else {
      ForkHandOver(s, h, p);
    }
  }

  lemma ForkHandOver(s: State, h: nat, p: nat)
    requires ProcsOk(s) && ForkInv(s) && ExitEnabled(s, h, p, ReparentSlot)
    requires var pc := s.procs[p].pc;
             s.procs[pc.i].parent != Some(p) || s.procs[pc.i].state != Zombie
             || pc.reaper.Some?
    ensures ForkInv(ExitStep(s, h, p, ReparentSlot))
  {
    var q := s.procs[p].pc.i;
    assert ProcOk(s, p) && ProcOk(s, q);
    if p == q {
      ForkOwn(s, ExitStep(s, h, p, ReparentSlot), p);
    } else {
      HandOverIs(s, h, p, q);
      ForkTwo(s, ExitStep(s, h, p, ReparentSlot), q, p);
    }
  }

  lemma ForkExit(s: State, h: nat, p: nat, a: ExitAct)
    requires ProcsOk(s) && ForkInv(s) && ExitEnabled(s, h, p, a)
    ensures ForkInv(ExitStep(s, h, p, a))
  {
    assert ProcOk(s, p);
    if a == ReparentSlot {
      ForkReparent(s, h, p);
    } else {
      ForkOwn(s, ExitStep(s, h, p, a), p);
    }
  }

  lemma ForkWake(s: State, h: nat, p: nat)
    requires ProcsOk(s) && ForkInv(s) && DieEnabled(s, h, p, WakeSlot)
    ensures ForkInv(DieStep(s, h, p, WakeSlot))
  {
    assert ProcOk(s, p);
    ForkFrame(s, DieStep(s, h, p, WakeSlot));
  }

  lemma ForkDie(s: State, h: nat, p: nat, a: DieAct)
    requires ProcsOk(s) && ForkInv(s) && DieEnabled(s, h, p, a)
    ensures ForkInv(DieStep(s, h, p, a))
  {
    assert ProcOk(s, p);
    if a == WakeSlot {
      ForkWake(s, h, p);
    } else {
      ForkOwn(s, DieStep(s, h, p, a), p);
    }
  }

  lemma ForkTick(s: State, h: nat, a: TickAct)
    requires ProcsOk(s) && ForkInv(s) && TickEnabled(s, h, a)
    ensures ForkInv(TickStep(s, h, a))
  {
    if a.TickAcq? || a.TickReturn? {
      assert ProcOk(s, a.p);
      ForkOwn(s, TickStep(s, h, a), a.p);
    } else if a.TickScan? {
      ForkTickScan(s, h);
    } else {
      ForkFrame(s, TickStep(s, h, a));
    }
  }

  lemma ForkTickScan(s: State, h: nat)
    requires ProcsOk(s) && ForkInv(s) && TickEnabled(s, h, TickScan)
    ensures ForkInv(TickStep(s, h, TickScan))
  {
    ForkOwn(s, TickStep(s, h, TickScan), s.harts[h].clk.i);
  }
}

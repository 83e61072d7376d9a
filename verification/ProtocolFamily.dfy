/** Families over every run: no process is orphaned while init lives, no zombie is forgotten, and a process that
    waits has a child. */
module ProtocolFamily {
  import opened Options
  import opened ProtocolState
  import opened ProtocolInv
  import opened ProtocolCore
  import opened ProtocolForest
  import opened ProtocolTheorems
  import opened ProtocolSafety
  import opened ProtocolProgress
  import opened ProtocolThreads
  import opened ProtocolLife

  // ---------------------------------------------------------------- the invariant

  /** Inside wait(), with a child. */
  predicate Waits(pc: Pc) {
    || (pc.Scan? && pc.have)
    || ((pc.SleepBoth? || pc.SleepOwn? || pc.Asleep? || pc.Relock?) && pc.r.ForChild?)
  }

  ghost predicate HasChild(s: State, p: nat) {
    exists q :: 0 <= q < |s.procs| && s.procs[q].parent == Some(p)
  }

  ghost predicate NoChildBelow(s: State, p: nat, n: nat) {
    forall q :: 0 <= q < |s.procs| && q < n ==> s.procs[q].parent != Some(p)
  }

  /** wait() knows whether it has children. */
  ghost predicate ScanOk(s: State, p: nat)
    requires p < |s.procs|
  {
    var pc := s.procs[p].pc;
    && (pc.Scan? && !pc.have ==> NoChildBelow(s, p, pc.i))
    && (Waits(pc) ==> HasChild(s, p))
  }

  predicate IsInit(x: Proc) {
    x.pid == 1 && Alive(x.state)
  }

  ghost predicate NoInit(s: State) {
    forall r :: 0 <= r < |s.procs| ==> !IsInit(s.procs[r])
  }

  /** kexit() goes without a reaper only if there is none, or init itself exits. */
  ghost predicate ReaperOk(s: State, p: nat)
    requires p < |s.procs|
  {
    s.procs[p].pc.Reparent? && s.procs[p].pc.reaper.None? && s.procs[p].pid != 1 ==> NoInit(s)
  }

  predicate Kin(x: Proc) {
    Alive(x.state) || x.state == Zombie
  }

  predicate Orphan(x: Proc) {
    Kin(x) && x.pid != 1 && x.parent.None?
  }

  /** While init lives there is no orphan, except while init itself is exiting under wait_lock. */
  ghost predicate OrphanOk(s: State, q: nat, r: nat)
    requires q < |s.procs| && r < |s.procs|
  {
    Orphan(s.procs[q]) && IsInit(s.procs[r]) ==> ExitPhase(s.procs[r].pc)
  }

  /** A zombie without a parent is still on its hart, whose scheduler will release it. */
  ghost predicate ZombieOk(s: State, q: nat)
    requires q < |s.procs|
  {
    s.procs[q].state == Zombie && s.procs[q].parent.None? ==> Current(s, q)
  }

  ghost predicate FamilyInv(s: State) {
    && (forall p :: 0 <= p < |s.procs| ==> ScanOk(s, p) && ReaperOk(s, p) && ZombieOk(s, p))
    && (forall q, r :: 0 <= q < |s.procs| && 0 <= r < |s.procs| ==> OrphanOk(s, q, r))
  }

  // ---------------------------------------------------------------- how a thread moves

  /** The moves of a thread that matter here: from s to t, slot p acted. */
  ghost predicate Moves(s: State, t: State, p: nat, a: Act)
    requires p < |s.procs| == |t.procs|
  {
    var pc, pc' := s.procs[p].pc, t.procs[p].pc;
    && (pc'.Scan? ==>
          || pc' == Scan(0, false) || pc' == pc
          || (pc.Scan? && pc.i < |s.procs| && pc'.i == pc.i + 1
              && pc'.have == (pc.have || s.procs[pc.i].parent == Some(p))))
    && (Waits(pc') && !pc'.Scan? ==> Waits(pc))
    && (pc'.Reparent? && pc'.reaper.None? ==> (pc.Reparent? && pc.reaper.None?) || a == OfExit(p, FindReaper(None)))
    && (ExitPhase(pc) && Alive(t.procs[p].state) ==> ExitPhase(pc'))
  }

  lemma MovesSwitch(s: State, h: nat, p: nat, a: SwitchAct)
    requires SwitchEnabled(s, h, p, a)
    ensures var t := SwitchStep(s, h, p, a); |t.procs| == |s.procs| && Moves(s, t, p, OfSwitch(p, a))
  {
  }

  lemma MovesMake(s: State, h: nat, p: nat, a: MakeAct)
    requires MakeEnabled(s, h, p, a) && Victim(s, h, OfMake(p, a)) != Some(p)
    ensures var t := MakeStep(s, h, p, a); |t.procs| == |s.procs| && Moves(s, t, p, OfMake(p, a))
  {
  }

  lemma MovesLink(s: State, h: nat, p: nat, a: LinkAct)
    requires LinkEnabled(s, h, p, a)
    ensures var t := LinkStep(s, h, p, a); |t.procs| == |s.procs| && Moves(s, t, p, OfLink(p, a))
  {
  }

  lemma MovesWait(s: State, h: nat, p: nat, a: WaitAct)
    requires WaitEnabled(s, h, p, a) && Victim(s, h, OfWait(p, a)) != Some(p)
    ensures var t := WaitStep(s, h, p, a); |t.procs| == |s.procs| && Moves(s, t, p, OfWait(p, a))
  {
  }

  lemma MovesSleep(s: State, h: nat, p: nat, a: SleepAct)
    requires SleepEnabled(s, h, p, a)
    ensures var t := SleepStep(s, h, p, a); |t.procs| == |s.procs| && Moves(s, t, p, OfSleep(p, a))
  {
  }

  lemma MovesExit(s: State, h: nat, p: nat, a: ExitAct)
    requires ExitEnabled(s, h, p, a) && Victim(s, h, OfExit(p, a)) != Some(p)
    ensures var t := ExitStep(s, h, p, a); |t.procs| == |s.procs| && Moves(s, t, p, OfExit(p, a))
  {
  }

  lemma MovesDie(s: State, h: nat, p: nat, a: DieAct)
    requires DieEnabled(s, h, p, a)
    ensures var t := DieStep(s, h, p, a); |t.procs| == |s.procs| && Moves(s, t, p, OfDie(p, a))
  {
  }

  lemma MovesTick(s: State, h: nat, p: nat, a: TickAct)
    requires TickEnabled(s, h, a) && Actor(OfTick(a)) == Some(p)
    ensures var t := TickStep(s, h, a); |t.procs| == |s.procs| && p < |s.procs| && Moves(s, t, p, OfTick(a))
  {
  }

  lemma ActorMoves(s: State, h: nat, a: Act, p: nat)
    requires Enabled(s, h, a) && Actor(a) == Some(p) && Victim(s, h, a) != Some(p)
    ensures var t := Step(s, h, a); p < |s.procs| == |t.procs| && Moves(s, t, p, a)
  {
    match a
    case OfSwitch(_, x) => MovesSwitch(s, h, p, x);
    case OfMake(_, x) => MovesMake(s, h, p, x);
    case OfLink(_, x) => MovesLink(s, h, p, x);
    case OfWait(_, x) => MovesWait(s, h, p, x);
    case OfSleep(_, x) => MovesSleep(s, h, p, x);
    case OfExit(_, x) => MovesExit(s, h, p, x);
    case OfDie(_, x) => MovesDie(s, h, p, x);
    case OfTick(x) => MovesTick(s, h, p, x);
  }

  // ---------------------------------------------------------------- what a step does to parents

  lemma VictimGone(s: State, h: nat, a: Act, q: nat)
    requires Inv(s) && Enabled(s, h, a) && Victim(s, h, a) == Some(q)
    ensures q < |s.procs| == |Step(s, h, a).procs| && Actor(a) != Some(q)
    ensures Step(s, h, a).procs[q] == UNUSED_PROC.(hart := s.procs[q].hart)
    ensures s.procs[q].parent.None? || s.procs[q].parent == Actor(a)
  {
    VictimOff(s, h, a);
    if a.OfMake? {
      assert MakeOk(s, a.p) && ProcOk(s, q);
    }
  }

  /** Where a step sets a parent. */
  lemma RelinkedTo(s: State, h: nat, a: Act, q: nat)
    requires Inv(s) && Enabled(s, h, a) && Relinked(s, h, a) == Some(q) && Victim(s, h, a) != Some(q)
    ensures q < |s.procs| == |Step(s, h, a).procs|
    ensures || (a.OfLink? && s.procs[q].parent.None? && Step(s, h, a).procs[q].parent == Some(a.p))
            || (a.OfExit? && s.procs[a.p].pc.Reparent? && s.procs[q].parent == Some(a.p)
                && Step(s, h, a).procs[q].parent == s.procs[a.p].pc.reaper
                && (s.procs[q].state == Zombie ==> s.procs[a.p].pc.reaper.Some?))
  {
    if a.OfLink? {
      assert MakeOk(s, a.p) && ProcOk(s, q) && ProcOk(s, a.p);
      LinkIs(s, h, a.p, q);
    } else {
      assert ParentOk(s, q) && ExitOk(s, a.p);
      HandsOver(s, h, a.p, q);
    }
  }

  /** A child stays its parent's child unless the parent acts. */
  lemma ChildStays(s: State, h: nat, a: Act, q: nat, p: nat)
    requires Inv(s) && Enabled(s, h, a) && q < |s.procs| && s.procs[q].parent == Some(p) && Actor(a) != Some(p)
    ensures |Step(s, h, a).procs| == |s.procs| && Step(s, h, a).procs[q].parent == Some(p)
  {
    if Victim(s, h, a) == Some(q) {
      VictimGone(s, h, a, q);
    } else {
      OnlyActorMoves(s, h, a, q);
      if Relinked(s, h, a) == Some(q) {
        RelinkedTo(s, h, a, q);
      }
    }
  }

  /** How a process gets a child: by fork, or as the reaper of an exiting process. */
  lemma NewChild(s: State, h: nat, a: Act, q: nat, p: nat)
    requires Inv(s) && Enabled(s, h, a) && q < |s.procs| == |Step(s, h, a).procs|
    requires Step(s, h, a).procs[q].parent == Some(p) && s.procs[q].parent != Some(p)
    ensures || a == OfLink(p, LinkChild)
            || (a.OfExit? && s.procs[a.p].pc.Reparent? && s.procs[a.p].pc.reaper == Some(p))
  {
    if Victim(s, h, a) == Some(q) {
      VictimGone(s, h, a, q);
    } else {
      OnlyActorMoves(s, h, a, q);
      if Relinked(s, h, a) == Some(q) {
        RelinkedTo(s, h, a, q);
      }
    }
  }

  // ---------------------------------------------------------------- wait() knows its children

  lemma ScanHolds(s: State, p: nat)
    requires CoreInv(s) && p < |s.procs| && s.procs[p].pc.Scan?
    ensures HoldsWait(s.procs[p])
  {
    assert ProcOk(s, p);
  }

  /** A process that scans gets no child from another. */
  lemma NoNewChild(s: State, h: nat, a: Act, q: nat, p: nat)
    requires Inv(s) && Enabled(s, h, a) && q < |s.procs| == |Step(s, h, a).procs| && p < |s.procs|
    requires s.procs[p].pc.Scan?
    requires s.procs[q].parent != Some(p)
    ensures Step(s, h, a).procs[q].parent != Some(p)
  {
    if Step(s, h, a).procs[q].parent == Some(p) {
      NewChild(s, h, a, q, p);
      if a.OfExit? {
        ScanHolds(s, p);
        assert HoldsWait(s.procs[a.p]) && ExitOk(s, a.p);
        OneWaiter(s, p, a.p);
      }
    }
  }

  lemma ScanOther(s: State, h: nat, a: Act, p: nat)
    requires Inv(s) && Enabled(s, h, a) && p < |s.procs| == |Step(s, h, a).procs| && ScanOk(s, p)
    requires Actor(a) != Some(p) && Victim(s, h, a) != Some(p)
    ensures ScanOk(Step(s, h, a), p)
  {
    var t, pc := Step(s, h, a), s.procs[p].pc;
    OnlyActorMoves(s, h, a, p);
    if pc.Scan? && !pc.have {
      forall q | 0 <= q < |t.procs| && q < pc.i
        ensures t.procs[q].parent != Some(p)
      {
        NoNewChild(s, h, a, q, p);
      }
    }
    if Waits(pc) {
      var q :| 0 <= q < |s.procs| && s.procs[q].parent == Some(p);
      ChildStays(s, h, a, q, p);
    }
  }

  /** A process that goes on scanning or waiting reaps and links nobody in that step. */
  lemma ScannerReapsNone(s: State, h: nat, a: Act, p: nat)
    requires Enabled(s, h, a) && Actor(a) == Some(p) && p < |s.procs| == |Step(s, h, a).procs|
    requires Victim(s, h, a) != Some(p)
    requires Step(s, h, a).procs[p].pc.Scan? || Waits(Step(s, h, a).procs[p].pc)
    ensures Victim(s, h, a).None? && Relinked(s, h, a).None?
  {
  }

  lemma ParentsSame(s: State, h: nat, a: Act)
    requires Enabled(s, h, a) && Victim(s, h, a).None? && Relinked(s, h, a).None?
    ensures |Step(s, h, a).procs| == |s.procs|
    ensures forall q :: 0 <= q < |s.procs| ==> Step(s, h, a).procs[q].parent == s.procs[q].parent
  {
    EnabledHart(s, h, a);
    forall q | 0 <= q < |s.procs|
      ensures Step(s, h, a).procs[q].parent == s.procs[q].parent
    {
      OnlyActorMoves(s, h, a, q);
    }
  }

  /** The claims of wait() after a move of its own, when no parent changed. */
  lemma ScanMoved(s: State, t: State, p: nat, a: Act)
    requires p < |s.procs| == |t.procs| && ScanOk(s, p) && Moves(s, t, p, a)
    requires forall q :: 0 <= q < |s.procs| ==> t.procs[q].parent == s.procs[q].parent
    ensures ScanOk(t, p)
  {
    var pc, pc' := s.procs[p].pc, t.procs[p].pc;
    if Waits(pc) {
      var q :| 0 <= q < |s.procs| && s.procs[q].parent == Some(p);
      assert t.procs[q].parent == Some(p);
    }
    if pc'.Scan? && pc' != Scan(0, false) && pc' != pc {
      assert t.procs[pc.i].parent == s.procs[pc.i].parent;
      assert !pc.have ==> NoChildBelow(s, p, pc.i);
    }
  }

  lemma ScanActor(s: State, h: nat, a: Act, p: nat)
    requires Enabled(s, h, a) && Actor(a) == Some(p) && p < |s.procs| == |Step(s, h, a).procs| && ScanOk(s, p)
    requires Victim(s, h, a) != Some(p)
    ensures ScanOk(Step(s, h, a), p)
  {
    var t := Step(s, h, a);
    ActorMoves(s, h, a, p);
    if t.procs[p].pc.Scan? || Waits(t.procs[p].pc) {
      ScannerReapsNone(s, h, a, p);
      ParentsSame(s, h, a);
      ScanMoved(s, t, p, a);
    }
  }

  lemma ScanStep(s: State, h: nat, a: Act, p: nat)
    requires Inv(s) && Enabled(s, h, a) && p < |s.procs| == |Step(s, h, a).procs| && ScanOk(s, p)
    ensures ScanOk(Step(s, h, a), p)
  {
    if Victim(s, h, a) == Some(p) {
      VictimGone(s, h, a, p);
    } else if Actor(a) == Some(p) {
      ScanActor(s, h, a, p);
    } else {
      ScanOther(s, h, a, p);
    }
  }

  // ---------------------------------------------------------------- init and its orphans

  lemma PidBefore(s: State, h: nat, a: Act, q: nat)
    requires Inv(s) && Enabled(s, h, a) && q < |s.procs| == |Step(s, h, a).procs|
    ensures var y := Step(s, h, a).procs[q]; Kin(y) ==> y.pid == s.procs[q].pid
    ensures Step(s, h, a).procs[q].pid == 1 ==> s.procs[q].pid == 1
  {
    LifeCycle(s, h, a, q);
    if Victim(s, h, a) == Some(q) {
      VictimGone(s, h, a, q);
    } else if Named(s, h, a) == Some(q) {
      NamedIsNew(s, h, a, q);
    } else {
      PidStep(s, h, a, q);
    }
  }

  lemma NamedIsNew(s: State, h: nat, a: Act, q: nat)
    requires Inv(s) && Enabled(s, h, a) && Named(s, h, a) == Some(q)
    ensures q < |s.procs| == |Step(s, h, a).procs|
    ensures Step(s, h, a).procs[q].state == New && Step(s, h, a).procs[q].pid >= 2
  {
    NextPidStep(s, h, a);
    assert MakeOk(s, a.p) && ProcOk(s, a.p);
  }

  /** Nobody becomes init. */
  lemma InitBefore(s: State, h: nat, a: Act, r: nat)
    requires Inv(s) && Enabled(s, h, a) && r < |s.procs| == |Step(s, h, a).procs| && IsInit(Step(s, h, a).procs[r])
    ensures IsInit(s.procs[r])
  {
    PidBefore(s, h, a, r);
    LifeCycle(s, h, a, r);
    assert PidOk(s, r);
  }

  lemma NoInitStays(s: State, h: nat, a: Act)
    requires Inv(s) && Enabled(s, h, a) && NoInit(s)
    ensures NoInit(Step(s, h, a))
  {
    EnabledHart(s, h, a);
    var t := Step(s, h, a);
    forall r | 0 <= r < |t.procs|
      ensures !IsInit(t.procs[r])
    {
      if IsInit(t.procs[r]) {
        InitBefore(s, h, a, r);
      }
    }
  }

  /** FindReaper finds nobody only if there is no init besides the exiting process. */
  lemma NoReaper(s: State, h: nat, p: nat)
    requires Inv(s) && ExitEnabled(s, h, p, FindReaper(None))
    ensures forall q :: 0 <= q < |s.procs| && q != p && s.procs[q].pid == 1 ==> !Alive(s.procs[q].state)
  {
    forall q | 0 <= q < |s.procs| && q != p && s.procs[q].pid == 1
      ensures !Alive(s.procs[q].state)
    {
      assert !IsReaper(s, p, q);
    }
  }

  lemma ReaperStep(s: State, h: nat, a: Act, p: nat)
    requires Inv(s) && Enabled(s, h, a) && p < |s.procs| == |Step(s, h, a).procs| && ReaperOk(s, p)
    ensures ReaperOk(Step(s, h, a), p)
  {
    var t := Step(s, h, a);
    if Victim(s, h, a) == Some(p) {
      VictimGone(s, h, a, p);
    } else if t.procs[p].pc.Reparent? && t.procs[p].pc.reaper.None? && t.procs[p].pid != 1 {
      if Actor(a) == Some(p) {
        ActorMoves(s, h, a, p);
      } else {
        OnlyActorMoves(s, h, a, p);
      }
      SamePid(s, h, a, p);
      if a == OfExit(p, FindReaper(None)) {
        NoReaper(s, h, p);
      }
      NoInitStays(s, h, a);
    }
  }

  /** A thread's own pid does not change under it. */
  lemma SamePid(s: State, h: nat, a: Act, p: nat)
    requires Inv(s) && Enabled(s, h, a) && p < |s.procs| == |Step(s, h, a).procs| && Step(s, h, a).procs[p].pc.Reparent?
    ensures s.procs[p].pid == Step(s, h, a).procs[p].pid
  {
    StepInv(s, h, a);
    assert ProcOk(Step(s, h, a), p);
    PidBefore(s, h, a, p);
  }

  lemma OnlyInit(s: State, p: nat, r: nat)
    requires ForkInv(s) && p < |s.procs| && r < |s.procs| && s.procs[p].pid == 1 && s.procs[r].pid == 1
    ensures p == r
  {
  }

  /** An orphan was one before, or its parent is just leaving it without a reaper. */
  lemma OrphanBefore(s: State, h: nat, a: Act, q: nat)
    requires Inv(s) && Enabled(s, h, a) && q < |s.procs| == |Step(s, h, a).procs| && Orphan(Step(s, h, a).procs[q])
    ensures || Orphan(s.procs[q])
            || (a.OfExit? && a.p < |s.procs| && s.procs[a.p].pc.Reparent? && s.procs[a.p].pc.reaper.None?)
  {
    PidBefore(s, h, a, q);
    LifeCycle(s, h, a, q);
    if Victim(s, h, a) != Some(q) {
      OnlyActorMoves(s, h, a, q);
      if Relinked(s, h, a) == Some(q) {
        RelinkedTo(s, h, a, q);
      }
    }
  }

  /** An init that is leaving its children, and still lives, goes on doing so. */
  lemma StillLeaving(s: State, h: nat, a: Act, r: nat)
    requires Inv(s) && Enabled(s, h, a) && r < |s.procs| == |Step(s, h, a).procs|
    requires ExitPhase(s.procs[r].pc) && Alive(Step(s, h, a).procs[r].state)
    ensures ExitPhase(Step(s, h, a).procs[r].pc)
  {
    if Victim(s, h, a) == Some(r) {
      VictimGone(s, h, a, r);
    } else if Actor(a) == Some(r) {
      ActorMoves(s, h, a, r);
    } else {
      OnlyActorMoves(s, h, a, r);
    }
  }

  lemma OrphanStep(s: State, h: nat, a: Act, q: nat, r: nat)
    requires Inv(s) && FamilyInv(s) && Enabled(s, h, a) && q < |s.procs| == |Step(s, h, a).procs| && r < |s.procs|
    ensures OrphanOk(Step(s, h, a), q, r)
  {
    var t := Step(s, h, a);
    if Orphan(t.procs[q]) && IsInit(t.procs[r]) {
      InitBefore(s, h, a, r);
      OrphanBefore(s, h, a, q);
      assert OrphanOk(s, q, r);
      if !Orphan(s.procs[q]) {
        assert ReaperOk(s, a.p);
        OnlyInit(s, a.p, r);
      }
      StillLeaving(s, h, a, r);
    }
  }

  // ---------------------------------------------------------------- zombies

  lemma CurrentStays(s: State, h: nat, a: Act, q: nat)
    requires Inv(s) && Enabled(s, h, a) && q < |s.procs| == |Step(s, h, a).procs| && Current(s, q)
    requires s.procs[q].state == Zombie && s.procs[q].parent.None? && Victim(s, h, a) != Some(q)
    ensures Current(Step(s, h, a), q)
  {
    var k := s.procs[q].hart;
    OnlyActorMoves(s, h, a, q);
    EnabledHart(s, h, a);
    CursorStep(s, h, a, k);
    assert HartOk(s, k);
  }

  lemma ZombieStep(s: State, h: nat, a: Act, q: nat)
    requires Inv(s) && Enabled(s, h, a) && q < |s.procs| == |Step(s, h, a).procs| && ZombieOk(s, q)
    ensures ZombieOk(Step(s, h, a), q)
  {
    var t := Step(s, h, a);
    if t.procs[q].state == Zombie && t.procs[q].parent.None? {
      LifeCycle(s, h, a, q);
      if a == OfDie(q, MarkZombie) {
        OnlyActorMoves(s, h, a, q);
        EnabledHart(s, h, a);
        CursorStep(s, h, a, h);
        assert HartOk(s, h);
      } else {
        OnlyActorMoves(s, h, a, q);
        if Relinked(s, h, a) == Some(q) {
          RelinkedTo(s, h, a, q);
        }
        CurrentStays(s, h, a, q);
      }
    }
  }

  // ---------------------------------------------------------------- over every run

  lemma FamilyStep(s: State, h: nat, a: Act)
    requires Inv(s) && FamilyInv(s) && Enabled(s, h, a)
    ensures FamilyInv(Step(s, h, a))
  {
    EnabledHart(s, h, a);
    var t := Step(s, h, a);
    forall p | 0 <= p < |t.procs|
      ensures ScanOk(t, p) && ReaperOk(t, p) && ZombieOk(t, p)
    {
      assert ScanOk(s, p) && ReaperOk(s, p) && ZombieOk(s, p);
      ScanStep(s, h, a, p);
      ReaperStep(s, h, a, p);
      ZombieStep(s, h, a, p);
    }
    forall q, r | 0 <= q < |t.procs| && 0 <= r < |t.procs|
      ensures OrphanOk(t, q, r)
    {
      OrphanStep(s, h, a, q, r);
    }
  }

  lemma {:induction false} RunFamily(run: seq<State>, i: nat)
    requires IsRun(run) && i < |run|
    ensures FamilyInv(run[i])
  {
    if i > 0 {
      var k := i - 1;
      RunFamily(run, k);
      RunInv(run, k);
      RunNext(run, k, i);
      var h: nat, a: Act :| Enabled(run[k], h, a) && run[i] == Step(run[k], h, a);
      FamilyStep(run[k], h, a);
    }
  }

  /** Whenever wait_lock is free and init lives, every other process, live or zombie, has a parent. */
  lemma NoOrphans(run: seq<State>, i: nat, q: nat, r: nat)
    requires IsRun(run) && i < |run| && q < |run[i].procs| && r < |run[i].procs| && WaitLock !in run[i].held
    requires IsInit(run[i].procs[r]) && Kin(run[i].procs[q]) && q != r
    ensures run[i].procs[q].parent.Some?
  {
    var s := run[i];
    RunInv(run, i);
    RunFamily(run, i);
    assert OrphanOk(s, q, r) && ProcOk(s, r);
    if s.procs[q].pid == 1 {
      OnlyInit(s, q, r);
    }
    if ExitPhase(s.procs[r].pc) {
      WaiterHart(s, r);
    }
  }

  /** A path of parents from q to r. */
  ghost predicate Descends(s: State, path: seq<nat>, q: nat, r: nat) {
    |path| >= 1 && path[0] == q && path[|path| - 1] == r && ParentPath(s, path)
  }

  /** Whenever wait_lock is free and init lives, every process descends from init. */
  lemma {:induction false} AllDescendFromInit(run: seq<State>, i: nat, q: nat, r: nat)
    requires IsRun(run) && i < |run| && q < |run[i].procs| && r < |run[i].procs| && WaitLock !in run[i].held
    requires IsInit(run[i].procs[r]) && Kin(run[i].procs[q])
    ensures exists path :: Descends(run[i], path, q, r)
    decreases run[i].procs[q].pid
  {
    var s := run[i];
    if q == r {
      assert Descends(s, [q], q, r);
    } else {
      NoOrphans(run, i, q, r);
      ParentsAreLive(run, i, q);
      var p := s.procs[q].parent.value;
      AllDescendFromInit(run, i, p, r);
      var path :| Descends(s, path, p, r);
      LongerPath(s, path, p, q, r);
    }
  }

  lemma LongerPath(s: State, path: seq<nat>, p: nat, q: nat, r: nat)
    requires Descends(s, path, p, r) && q < |s.procs| && s.procs[q].parent == Some(p)
    ensures Descends(s, [q] + path, q, r)
  {
    var longer := [q] + path;
    forall k | 0 <= k < |longer| - 1
      ensures s.procs[longer[k]].parent == Some(longer[k + 1])
    {
      if k > 0 {
        assert s.procs[path[k - 1]].parent == Some(path[k - 1 + 1]);
      }
    }
  }

  /** No zombie is forgotten: once its lock is free it has a parent, a live process, to reap it. */
  lemma ZombieHasReaper(run: seq<State>, i: nat, q: nat)
    requires IsRun(run) && i < |run| && q < |run[i].procs| && run[i].procs[q].state == Zombie
    requires ProcLock(q) !in run[i].held
    ensures var s := run[i];
            s.procs[q].parent.Some? && s.procs[q].parent.value < |s.procs|
              && Alive(s.procs[s.procs[q].parent.value].state)
  {
    var s := run[i];
    RunInv(run, i);
    RunFamily(run, i);
    assert ZombieOk(s, q) && ParentOk(s, q);
    Unlocked(s, q);
  }

  /** A process asleep in wait() has a child to wait for. */
  lemma SleeperHasChild(run: seq<State>, i: nat, p: nat)
    requires IsRun(run) && i < |run| && p < |run[i].procs|
    requires run[i].procs[p].state == Waiting && run[i].procs[p].chan == OnProc(p)
    ensures HasChild(run[i], p)
  {
    RunInv(run, i);
    RunFamily(run, i);
    assert ScanOk(run[i], p) && ProcOk(run[i], p);
  }
}

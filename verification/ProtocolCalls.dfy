/** What fork(), wait() and kexit() do from call to return, over every run, and how much work they take. */
module ProtocolCalls {
  import opened Options
  import opened ProtocolState
  import opened ProtocolInv
  import opened ProtocolCore
  import opened ProtocolTheorems
  import opened ProtocolSafety
  import opened ProtocolProgress
  import opened ProtocolSleep
  import opened ProtocolThreads
  import opened ProtocolLife
  import opened ProtocolFamily
  import opened ProtocolSched

  /** p is in the kernel in the first k states. */
  ghost predicate InKernel(states: seq<State>, p: nat, k: nat) {
    forall i :: 0 <= i < k && i < |states| ==> p < |states[i].procs| && states[i].procs[p].pc != Run
  }

  // ---------------------------------------------------------------- fork: the moves

  predicate InFork(pc: Pc) {
    pc.Claim? || Making(pc) || pc.Unwait?
  }

  /** The slot a forking process works on keeps its pid. */
  predicate SameChild(s: State, t: State, c: nat) {
    c < |s.procs| == |t.procs| && t.procs[c].pid == s.procs[c].pid && t.procs[c].parent == s.procs[c].parent
  }

  /** A step of process p inside fork(). */
  ghost predicate ForkMove(s: State, t: State, p: nat, a: Act)
    requires p < |s.procs| == |t.procs|
  {
    var pc, pc' := s.procs[p].pc, t.procs[p].pc;
    match pc
    case Claim(i) =>
      || pc' == pc
      || (i >= |s.procs| && pc' == Run)
      || (i < |s.procs| && a == OfMake(p, ClaimSlot)
          && pc' == if s.procs[i].state == Unused then TakePid(i) else Claim(i + 1))
    case TakePid(c) =>
      pc' == pc || (pc' == Build(c) && c < |s.procs| && t.procs[c].pid == s.nextPid)
    case Build(c) =>
      SameChild(s, t, c) && (pc' == pc || (a.OfMake? && a.make.BuildDone? && a.p == p
                                           && pc' == if a.make.ok then LinkLock(c) else Discard(c)))
    case Discard(c) => pc' == pc || pc' == Run
    case LinkLock(c) => SameChild(s, t, c) && (pc' == pc || pc' == Link(c))
    case Link(c) =>
      c < |s.procs| && t.procs[c].pid == s.procs[c].pid
      && (pc' == pc || (pc' == Unwait(Some(s.procs[c].pid)) && t.procs[c].parent == Some(p)))
    case Unwait(_) => pc' == pc || pc' == Run
    case _ => true
  }

  lemma ForkMoveSwitch(s: State, h: nat, p: nat, a: SwitchAct)
    requires SwitchEnabled(s, h, p, a) && MakeOk(s, p)
    ensures ForkMove(s, SwitchStep(s, h, p, a), p, OfSwitch(p, a))
  {
  }

  lemma ForkMoveMake(s: State, h: nat, p: nat, a: MakeAct)
    requires MakeEnabled(s, h, p, a) && MakeOk(s, p) && s.procs[p].state == Running
    ensures ForkMove(s, MakeStep(s, h, p, a), p, OfMake(p, a))
  {
  }

  lemma ForkMoveLink(s: State, h: nat, p: nat, a: LinkAct)
    requires LinkEnabled(s, h, p, a) && MakeOk(s, p) && s.procs[p].state == Running
    ensures ForkMove(s, LinkStep(s, h, p, a), p, OfLink(p, a))
  {
  }

  lemma ForkActs(s: State, h: nat, a: Act, p: nat)
    requires Enabled(s, h, a) && Actor(a) == Some(p) && InFork(s.procs[p].pc)
    ensures a.OfSwitch? || a.OfMake? || a.OfLink?
  {
  }

  lemma ForkMoves(s: State, h: nat, a: Act, p: nat)
    requires Inv(s) && Enabled(s, h, a) && Actor(a) == Some(p) && p < |s.procs| && InFork(s.procs[p].pc)
    ensures |Step(s, h, a).procs| == |s.procs| && ForkMove(s, Step(s, h, a), p, a)
  {
    EnabledHart(s, h, a);
    ForkActs(s, h, a, p);
    ActorOk(s, h, p);
    match a
    case OfSwitch(_, x) => ForkMoveSwitch(s, h, p, x);
    case OfMake(_, x) => ForkMoveMake(s, h, p, x);
    case OfLink(_, x) => ForkMoveLink(s, h, p, x);
  }

  /** A slot is released, or named, by its parent, by the process that makes it, or when it has no parent. */
  lemma HandledBy(s: State, h: nat, a: Act, c: nat)
    requires Inv(s) && Enabled(s, h, a) && (Victim(s, h, a) == Some(c) || Named(s, h, a) == Some(c))
    ensures c < |s.procs| && (s.procs[c].parent.None? || s.procs[c].parent == Actor(a))
    ensures s.procs[c].state == New ==> Actor(a) == Some(s.procs[c].creator)
  {
    if a.OfMake? {
      assert MakeOk(s, a.p) && ProcOk(s, s.procs[a.p].pc.c);
    }
    if Victim(s, h, a) == Some(c) {
      VictimGone(s, h, a, c);
    }
  }

  /** Nobody else touches the NEW slot of a forking process, or the pid of its child. */
  lemma ChildUntouched(s: State, h: nat, a: Act, p: nat, c: nat)
    requires Inv(s) && Enabled(s, h, a) && Actor(a) != Some(p) && p < |s.procs| && c < |s.procs|
    requires (Making(s.procs[p].pc) && s.procs[p].pc.c == c) || s.procs[c].parent == Some(p)
    ensures |Step(s, h, a).procs| == |s.procs| && Step(s, h, a).procs[c].pid == s.procs[c].pid
    ensures s.procs[c].parent == Some(p) ==> Step(s, h, a).procs[c].parent == Some(p)
  {
    EnabledHart(s, h, a);
    assert MakeOk(s, p);
    if Victim(s, h, a) == Some(c) || Named(s, h, a) == Some(c) {
      HandledBy(s, h, a, c);
    } else {
      PidStep(s, h, a, c);
    }
    if s.procs[c].parent == Some(p) {
      ChildStays(s, h, a, c, p);
    }
  }

  // ---------------------------------------------------------------- fork: from call to return

  /** In step i, p tried slot c and found it in use. */
  ghost predicate TriedAt(states: seq<State>, steps: seq<(nat, Act)>, p: nat, c: nat, i: nat) {
    && i < |steps| && i < |states| && p < |states[i].procs| && c < |states[i].procs|
    && steps[i].1 == OfMake(p, ClaimSlot) && states[i].procs[p].pc == Claim(c) && states[i].procs[c].state != Unused
  }

  ghost predicate Tried(states: seq<State>, steps: seq<(nat, Act)>, p: nat, c: nat, k: nat) {
    exists i: nat :: i < k && TriedAt(states, steps, p, c, i)
  }

  ghost predicate AllTried(states: seq<State>, steps: seq<(nat, Act)>, p: nat, n: nat, k: nat) {
    forall c: nat :: c < n ==> Tried(states, steps, p, c, k)
  }

  /** In step i, an allocation for p's child failed. */
  ghost predicate FailedAt(steps: seq<(nat, Act)>, p: nat, i: nat) {
    i < |steps| && steps[i].1.OfMake? && steps[i].1.p == p && steps[i].1.make.BuildDone? && !steps[i].1.make.ok
  }

  ghost predicate AllocFailed(steps: seq<(nat, Act)>, p: nat, k: nat) {
    exists i: nat :: i < k && FailedAt(steps, p, i)
  }

  ghost predicate UnusedAt(states: seq<State>, c: nat, i: nat) {
    i < |states| && c < |states[i].procs| && states[i].procs[c].state == Unused
  }

  ghost predicate NextAt(states: seq<State>, pid: nat, i: nat) {
    i < |states| && states[i].nextPid == pid
  }

  /** Slot c was unused, and its pid was the next one to be given, at points of the call. */
  ghost predicate Fresh(states: seq<State>, c: nat, k: nat) {
    exists i: nat :: i <= k && UnusedAt(states, c, i)
  }

  ghost predicate NewPid(states: seq<State>, pid: nat, k: nat) {
    exists i: nat :: i <= k && NextAt(states, pid, i)
  }

  /** Slot c holds a child of p made during the call. */
  ghost predicate ChildMade(states: seq<State>, p: nat, c: nat, k: nat) {
    && k < |states| && c < |states[k].procs| && states[k].procs[c].parent == Some(p)
    && Fresh(states, c, k) && NewPid(states, states[k].procs[c].pid, k)
  }

  /** ret is the pid of a child of p made during the call. */
  ghost predicate Returns(states: seq<State>, p: nat, ret: Option<nat>, k: nat) {
    exists c: nat :: ChildMade(states, p, c, k) && ret == Some(states[k].procs[c].pid)
  }

  /** What fork() has established after k steps. */
  ghost predicate ForkState(states: seq<State>, steps: seq<(nat, Act)>, p: nat, k: nat)
    requires k < |states| && p < |states[k].procs|
  {
    var s := states[k];
    match s.procs[p].pc
    case Claim(i) => AllTried(states, steps, p, i, k)
    case TakePid(c) => Fresh(states, c, k)
    case Build(c) => Fresh(states, c, k) && c < |s.procs| && NewPid(states, s.procs[c].pid, k)
    case Discard(_) => AllocFailed(steps, p, k)
    case LinkLock(c) => Fresh(states, c, k) && c < |s.procs| && NewPid(states, s.procs[c].pid, k)
    case Link(c) => Fresh(states, c, k) && c < |s.procs| && NewPid(states, s.procs[c].pid, k)
    case Unwait(ret) => Returns(states, p, ret, k)
    case _ => false
  }

  lemma TriedLater(states: seq<State>, steps: seq<(nat, Act)>, p: nat, n: nat, k: nat, k': nat)
    requires AllTried(states, steps, p, n, k) && k <= k'
    ensures AllTried(states, steps, p, n, k')
  {
    forall c: nat | c < n
      ensures Tried(states, steps, p, c, k')
    {
      assert Tried(states, steps, p, c, k);
      var i: nat :| i < k && TriedAt(states, steps, p, c, i);
      assert i < k' && TriedAt(states, steps, p, c, i);
    }
  }

  lemma TriedNext(states: seq<State>, steps: seq<(nat, Act)>, p: nat, n: nat, k: nat, k': nat)
    requires AllTried(states, steps, p, n, k) && k' == k + 1 && TriedAt(states, steps, p, n, k)
    ensures AllTried(states, steps, p, n + 1, k')
  {
    TriedLater(states, steps, p, n, k, k');
    assert Tried(states, steps, p, n, k');
  }

  lemma FreshLater(states: seq<State>, c: nat, k: nat, k': nat)
    requires Fresh(states, c, k) && k <= k'
    ensures Fresh(states, c, k')
  {
    var i: nat :| i <= k && UnusedAt(states, c, i);
    assert i <= k' && UnusedAt(states, c, i);
  }

  lemma NewPidLater(states: seq<State>, pid: nat, k: nat, k': nat)
    requires NewPid(states, pid, k) && k <= k'
    ensures NewPid(states, pid, k')
  {
    var i: nat :| i <= k && NextAt(states, pid, i);
    assert i <= k' && NextAt(states, pid, i);
  }

  lemma FailedLater(steps: seq<(nat, Act)>, p: nat, k: nat, k': nat)
    requires AllocFailed(steps, p, k) && k <= k'
    ensures AllocFailed(steps, p, k')
  {
    var i: nat :| i < k && FailedAt(steps, p, i);
    assert i < k' && FailedAt(steps, p, i);
  }

  /** The same slot later, with the same pid and the same parent. */
  lemma ChildLater(states: seq<State>, p: nat, c: nat, k: nat, k': nat)
    requires ChildMade(states, p, c, k) && k <= k' < |states| && c < |states[k'].procs|
    requires states[k'].procs[c].pid == states[k].procs[c].pid && states[k'].procs[c].parent == Some(p)
    ensures ChildMade(states, p, c, k')
  {
    FreshLater(states, c, k, k');
    NewPidLater(states, states[k].procs[c].pid, k, k');
  }

  lemma ReturnsLater(states: seq<State>, steps: seq<(nat, Act)>, p: nat, ret: Option<nat>, k: nat, k': nat)
    requires Returns(states, p, ret, k) && k' == k + 1 && IsTrace(states, steps) && k < |steps| && Inv(states[k])
    requires p < |states[k].procs|
    requires Actor(steps[k].1) != Some(p) || steps[k].1.OfSwitch?
      || (steps[k].1.OfLink? && steps[k].1.link == UnwaitRel)
    ensures Returns(states, p, ret, k')
  {
    var c: nat :| ChildMade(states, p, c, k) && ret == Some(states[k].procs[c].pid);
    var h, a := steps[k].0, steps[k].1;
    TraceStep(states, steps, k, k');
    EnabledHart(states[k], h, a);
    if Actor(a) != Some(p) {
      ChildUntouched(states[k], h, a, p, c);
    } else {
      PidStep(states[k], h, a, c);
      OnlyActorMoves(states[k], h, a, c);
    }
    ChildLater(states, p, c, k, k');
  }

  lemma NotReleased(s: State, h: nat, a: Act, p: nat)
    requires Inv(s) && Enabled(s, h, a) && p < |s.procs| && !s.procs[p].pc.Dead? && !s.procs[p].pc.Born?
    ensures Victim(s, h, a) != Some(p)
  {
    if Victim(s, h, a).Some? {
      VictimIdle(s, h, a);
    }
  }

  /** While others step, fork() keeps what it has. */
  lemma ForkOther(states: seq<State>, steps: seq<(nat, Act)>, p: nat, k: nat, k': nat)
    requires IsTrace(states, steps) && k < |steps| && k' == k + 1 && Inv(states[k]) && p < |states[k].procs|
    requires ForkState(states, steps, p, k) && Actor(steps[k].1) != Some(p)
    ensures p < |states[k'].procs| && ForkState(states, steps, p, k')
  {
    var s, h, a, pc := states[k], steps[k].0, steps[k].1, states[k].procs[p].pc;
    TraceStep(states, steps, k, k');
    NotReleased(s, h, a, p);
    OnlyActorMoves(s, h, a, p);
    if pc.Claim? {
      TriedLater(states, steps, p, pc.i, k, k');
    } else if pc.TakePid? {
      FreshLater(states, pc.c, k, k');
    } else if pc.Discard? {
      FailedLater(steps, p, k, k');
    } else if pc.Unwait? {
      ReturnsLater(states, steps, p, pc.ret, k, k');
    } else if pc.Build? || pc.LinkLock? || pc.Link? {
      ChildUntouched(s, h, a, p, pc.c);
      FreshLater(states, pc.c, k, k');
      NewPidLater(states, s.procs[pc.c].pid, k, k');
    }
  }

  /** How fork() ended in step k: -1 because every slot was in use when tried, -1 because an allocation failed, or the
      pid of a new child of p. */
  ghost predicate ForkOutcome(states: seq<State>, steps: seq<(nat, Act)>, p: nat, k: nat, k': nat)
    requires k < |states| && p < |states[k].procs|
  {
    match states[k].procs[p].pc
    case Claim(_) => AllTried(states, steps, p, |states[k].procs|, k)
    case Discard(_) => AllocFailed(steps, p, k)
    case Unwait(ret) => Returns(states, p, ret, k')
    case _ => false
  }

  lemma ForkClaims(states: seq<State>, steps: seq<(nat, Act)>, p: nat, k: nat, k': nat, i: nat)
    requires k < |steps| && k' == k + 1 && k' < |states| && p < |states[k].procs| == |states[k'].procs|
    requires states[k].procs[p].pc == Claim(i) && ForkMove(states[k], states[k'], p, steps[k].1)
    requires AllTried(states, steps, p, i, k)
    ensures if states[k'].procs[p].pc == Run then ForkOutcome(states, steps, p, k, k')
            else ForkState(states, steps, p, k')
  {
    var s, t := states[k], states[k'];
    TriedLater(states, steps, p, i, k, k');
    if i < |s.procs| && t.procs[p].pc != s.procs[p].pc {
      if s.procs[i].state == Unused {
        assert UnusedAt(states, i, k);
      } else {
        assert TriedAt(states, steps, p, i, k);
        TriedNext(states, steps, p, i, k, k');
      }
    }
  }

  lemma ForkBuilds(states: seq<State>, steps: seq<(nat, Act)>, p: nat, k: nat, k': nat, c: nat)
    requires k < |steps| && k' == k + 1 && k' < |states| && p < |states[k].procs| == |states[k'].procs|
    requires c < |states[k].procs|
    requires var pc := states[k].procs[p].pc; pc == TakePid(c) || pc == Build(c) || pc == LinkLock(c) || pc == Link(c)
    requires ForkMove(states[k], states[k'], p, steps[k].1) && ForkState(states, steps, p, k)
    ensures states[k'].procs[p].pc != Run && ForkState(states, steps, p, k')
  {
    var s, t := states[k], states[k'];
    FreshLater(states, c, k, k');
    if s.procs[p].pc.TakePid? {
      assert NextAt(states, s.nextPid, k);
    } else {
      NewPidLater(states, s.procs[c].pid, k, k');
    }
    if t.procs[p].pc.Discard? {
      assert FailedAt(steps, p, k);
    }
    if t.procs[p].pc.Unwait? {
      assert ChildMade(states, p, c, k');
    }
  }

  /** A step of fork()'s own. */
  lemma ForkActor(states: seq<State>, steps: seq<(nat, Act)>, p: nat, k: nat, k': nat)
    requires IsTrace(states, steps) && k < |steps| && k' == k + 1 && Inv(states[k]) && p < |states[k].procs|
    requires ForkState(states, steps, p, k) && Actor(steps[k].1) == Some(p)
    ensures p < |states[k'].procs|
    ensures if states[k'].procs[p].pc == Run then ForkOutcome(states, steps, p, k, k')
            else ForkState(states, steps, p, k')
  {
    var s, h, a, pc := states[k], steps[k].0, steps[k].1, states[k].procs[p].pc;
    TraceStep(states, steps, k, k');
    ForkMoves(s, h, a, p);
    if pc.Claim? {
      ForkClaims(states, steps, p, k, k', pc.i);
    } else if pc.Discard? {
      FailedLater(steps, p, k, k');
    } else if pc.Unwait? {
      UnwaitActs(s, h, a, p);
      ReturnsLater(states, steps, p, pc.ret, k, k');
    } else if Making(pc) {
      assert MakeOk(s, p);
      ForkBuilds(states, steps, p, k, k', pc.c);
    }
  }

  lemma UnwaitActs(s: State, h: nat, a: Act, p: nat)
    requires Enabled(s, h, a) && Actor(a) == Some(p) && p < |s.procs| && s.procs[p].pc.Unwait?
    ensures a.OfSwitch? || (a.OfLink? && a.link == UnwaitRel)
  {
  }

  lemma {:induction false} ForkGoesOn(states: seq<State>, steps: seq<(nat, Act)>, p: nat, k: nat)
    requires IsTrace(states, steps) && Inv(states[0]) && k <= |steps|
    requires p < |states[0].procs| && states[0].procs[p].pc == Claim(0) && InKernel(states, p, k + 1)
    ensures p < |states[k].procs| && ForkState(states, steps, p, k)
  {
    if k > 0 {
      var i := k - 1;
      ForkGoesOn(states, steps, p, i);
      TraceInv(states, steps, i);
      if Actor(steps[i].1) == Some(p) {
        ForkActor(states, steps, p, i, k);
      } else {
        ForkOther(states, steps, p, i, k);
      }
    }
  }

  /** fork() from call to return, in every run: if p calls fork() in state 0 of a stretch of a run and is first back in
      user mode after step k, then fork() returned -1 because p found every slot in use when it tried it, or -1
      because an allocation failed, or the pid, new at some point of the call, of a process in a slot
      that was unused at some point of the call and whose parent is p now. */
  lemma ForkEnds(run: seq<State>, j: nat, states: seq<State>, steps: seq<(nat, Act)>, p: nat, k: nat, k': nat)
    requires IsRun(run) && j < |run| && IsTrace(states, steps) && states[0] == run[j] && k < |steps| && k' == k + 1
    requires p < |states[0].procs| && states[0].procs[p].pc == Claim(0) && InKernel(states, p, k')
    requires p < |states[k'].procs| && states[k'].procs[p].pc == Run
    ensures p < |states[k].procs| && ForkOutcome(states, steps, p, k, k')
  {
    RunInv(run, j);
    ForkGoesOn(states, steps, p, k);
    TraceInv(states, steps, k);
    if Actor(steps[k].1) == Some(p) {
      ForkActor(states, steps, p, k, k');
    } else {
      ForkOther(states, steps, p, k, k');
    }
  }

  // ---------------------------------------------------------------- wait: from call to return

  predicate InWait(pc: Pc) {
    || pc == WaitLk || pc.Scan?
    || ((pc.SleepBoth? || pc.SleepOwn? || pc.Asleep? || pc.Relock?) && pc.r.ForChild?)
  }

  /** The step from s to t decides what wait() by p returns: the pid of a zombie child, which it reaps, or -1, because
      the exit status of a zombie child could not be stored or because p has no child. */
  ghost predicate WaitDone(s: State, t: State, p: nat, a: Act, ret: Option<nat>) {
    match ret
    case Some(pid) =>
      exists q :: 0 <= q < |s.procs| && ZombieChild(s, p, q) && s.procs[q].pid == pid && t.log == s.log + [pid]
    case None =>
      || !HasChild(s, p)
      || (a == OfWait(p, ScanSlot(true)) && exists q :: 0 <= q < |s.procs| && ZombieChild(s, p, q))
  }

  ghost predicate WaitMove(s: State, t: State, p: nat, a: Act)
    requires p < |t.procs|
  {
    InWait(t.procs[p].pc) || (t.procs[p].pc.Unwait? && WaitDone(s, t, p, a, t.procs[p].pc.ret))
  }

  lemma WaitMoveSwitch(s: State, h: nat, p: nat, a: SwitchAct)
    requires SwitchEnabled(s, h, p, a) && InWait(s.procs[p].pc)
    ensures WaitMove(s, SwitchStep(s, h, p, a), p, OfSwitch(p, a))
  {
  }

  lemma WaitMoveSleep(s: State, h: nat, p: nat, a: SleepAct)
    requires SleepEnabled(s, h, p, a) && InWait(s.procs[p].pc)
    ensures WaitMove(s, SleepStep(s, h, p, a), p, OfSleep(p, a))
  {
  }

  lemma WaitMoveScan(s: State, h: nat, p: nat, copyFails: bool, q: nat)
    requires WaitEnabled(s, h, p, ScanSlot(copyFails)) && q == s.procs[p].pc.i && s.procs[p].state == Running
    ensures WaitMove(s, WaitStep(s, h, p, ScanSlot(copyFails)), p, OfWait(p, ScanSlot(copyFails)))
  {
    if s.procs[q].parent == Some(p) && s.procs[q].state == Zombie {
      assert ZombieChild(s, p, q);
    }
  }

  lemma WaitMoveWait(s: State, h: nat, p: nat, a: WaitAct)
    requires WaitEnabled(s, h, p, a) && s.procs[p].state == Running && ScanOk(s, p)
    ensures WaitMove(s, WaitStep(s, h, p, a), p, OfWait(p, a))
  {
    if a.ScanSlot? {
      WaitMoveScan(s, h, p, a.copyFails, s.procs[p].pc.i);
    } else if a == ScanNone {
      assert NoChildBelow(s, p, |s.procs|);
    }
  }

  lemma WaitActs(s: State, h: nat, a: Act, p: nat)
    requires Enabled(s, h, a) && Actor(a) == Some(p) && p < |s.procs| && InWait(s.procs[p].pc)
    ensures a.OfSwitch? || a.OfWait? || a.OfSleep?
  {
  }

  /** wait() ends only by reaping a zombie child, on a failed copyout for one, or without children. */
  lemma WaitMoves(s: State, h: nat, a: Act, p: nat)
    requires Inv(s) && FamilyInv(s) && Enabled(s, h, a) && Actor(a) == Some(p) && p < |s.procs| && InWait(s.procs[p].pc)
    ensures p < |Step(s, h, a).procs| && WaitMove(s, Step(s, h, a), p, a)
  {
    EnabledHart(s, h, a);
    WaitActs(s, h, a, p);
    ActorOk(s, h, p);
    assert ScanOk(s, p);
    match a
    case OfSwitch(_, x) => WaitMoveSwitch(s, h, p, x);
    case OfWait(_, x) => WaitMoveWait(s, h, p, x);
    case OfSleep(_, x) => WaitMoveSleep(s, h, p, x);
  }

  ghost predicate WaitDoneAt(states: seq<State>, steps: seq<(nat, Act)>, p: nat, ret: Option<nat>, i: nat) {
    i < |steps| && i + 1 < |states| && WaitDone(states[i], states[i + 1], p, steps[i].1, ret)
  }

  ghost predicate WaitDecided(states: seq<State>, steps: seq<(nat, Act)>, p: nat, ret: Option<nat>, k: nat) {
    exists i: nat :: i < k && WaitDoneAt(states, steps, p, ret, i)
  }

  ghost predicate WaitState(states: seq<State>, steps: seq<(nat, Act)>, p: nat, k: nat)
    requires k < |states| && p < |states[k].procs|
  {
    var pc := states[k].procs[p].pc;
    InWait(pc) || (pc.Unwait? && WaitDecided(states, steps, p, pc.ret, k))
  }

  lemma DecidedLater(states: seq<State>, steps: seq<(nat, Act)>, p: nat, ret: Option<nat>, k: nat, k': nat)
    requires WaitDecided(states, steps, p, ret, k) && k <= k'
    ensures WaitDecided(states, steps, p, ret, k')
  {
    var i: nat :| i < k && WaitDoneAt(states, steps, p, ret, i);
    assert i < k' && WaitDoneAt(states, steps, p, ret, i);
  }

  /** wait() has gone on, or it has just returned. */
  ghost predicate WaitGoes(states: seq<State>, steps: seq<(nat, Act)>, p: nat, k: nat, k': nat)
    requires k < |states| && p < |states[k].procs|
  {
    && k' < |states| && p < |states[k'].procs|
    && (states[k'].procs[p].pc == Run ==> states[k].procs[p].pc.Unwait?)
    && (states[k'].procs[p].pc != Run ==> WaitState(states, steps, p, k'))
  }

  lemma WaitNext(states: seq<State>, steps: seq<(nat, Act)>, p: nat, k: nat, k': nat)
    requires IsTrace(states, steps) && k < |steps| && k' == k + 1 && Inv(states[k]) && FamilyInv(states[k])
    requires p < |states[k].procs| && WaitState(states, steps, p, k)
    ensures WaitGoes(states, steps, p, k, k')
  {
    var pc := states[k].procs[p].pc;
    if InWait(pc) && Actor(steps[k].1) == Some(p) {
      WaitActor(states, steps, p, k, k');
    } else {
      WaitRests(states, steps, p, k, k');
    }
  }

  lemma WaitRests(states: seq<State>, steps: seq<(nat, Act)>, p: nat, k: nat, k': nat)
    requires IsTrace(states, steps) && k < |steps| && k' == k + 1 && Inv(states[k])
    requires p < |states[k].procs| && WaitState(states, steps, p, k)
    requires Actor(steps[k].1) != Some(p) || states[k].procs[p].pc.Unwait?
    ensures WaitGoes(states, steps, p, k, k')
  {
    var s, h, a, pc := states[k], steps[k].0, steps[k].1, states[k].procs[p].pc;
    TraceStep(states, steps, k, k');
    if pc.Unwait? {
      DecidedLater(states, steps, p, pc.ret, k, k');
    }
    if Actor(a) != Some(p) {
      StaysPut(s, h, a, p);
    } else {
      UnwaitMoves(s, h, a, p);
    }
  }

  lemma StaysPut(s: State, h: nat, a: Act, p: nat)
    requires Inv(s) && Enabled(s, h, a) && Actor(a) != Some(p) && p < |s.procs|
    requires !s.procs[p].pc.Dead? && !s.procs[p].pc.Born?
    ensures |Step(s, h, a).procs| == |s.procs| && Step(s, h, a).procs[p].pc == s.procs[p].pc
  {
    EnabledHart(s, h, a);
    NotReleased(s, h, a, p);
    OnlyActorMoves(s, h, a, p);
  }

  lemma UnwaitMoves(s: State, h: nat, a: Act, p: nat)
    requires Inv(s) && Enabled(s, h, a) && Actor(a) == Some(p) && p < |s.procs| && s.procs[p].pc.Unwait?
    ensures |Step(s, h, a).procs| == |s.procs|
    ensures Step(s, h, a).procs[p].pc == s.procs[p].pc || Step(s, h, a).procs[p].pc == Run
  {
    ForkMoves(s, h, a, p);
  }

  lemma WaitActor(states: seq<State>, steps: seq<(nat, Act)>, p: nat, k: nat, k': nat)
    requires IsTrace(states, steps) && k < |steps| && k' == k + 1 && Inv(states[k]) && FamilyInv(states[k])
    requires p < |states[k].procs| && InWait(states[k].procs[p].pc) && Actor(steps[k].1) == Some(p)
    ensures p < |states[k'].procs| && WaitState(states, steps, p, k')
  {
    TraceStep(states, steps, k, k');
    WaitMoves(states[k], steps[k].0, steps[k].1, p);
    var pc' := states[k'].procs[p].pc;
    if pc'.Unwait? {
      assert WaitDoneAt(states, steps, p, pc'.ret, k);
    }
  }

  lemma {:induction false} TraceFamily(states: seq<State>, steps: seq<(nat, Act)>, k: nat)
    requires IsTrace(states, steps) && Inv(states[0]) && FamilyInv(states[0]) && k <= |steps|
    ensures Inv(states[k]) && FamilyInv(states[k])
  {
    TraceInv(states, steps, k);
    if k > 0 {
      var i := k - 1;
      TraceFamily(states, steps, i);
      TraceStep(states, steps, i, k);
      FamilyStep(states[i], steps[i].0, steps[i].1);
    }
  }

  lemma {:induction false} WaitGoesOn(states: seq<State>, steps: seq<(nat, Act)>, p: nat, k: nat)
    requires IsTrace(states, steps) && Inv(states[0]) && FamilyInv(states[0]) && k <= |steps|
    requires p < |states[0].procs| && states[0].procs[p].pc == WaitLk && InKernel(states, p, k + 1)
    ensures p < |states[k].procs| && WaitState(states, steps, p, k)
  {
    if k > 0 {
      var i := k - 1;
      WaitGoesOn(states, steps, p, i);
      TraceFamily(states, steps, i);
      WaitNext(states, steps, p, i, k);
    }
  }

  /** wait() from call to return, in every run: if p calls wait() in state 0 of a stretch of a run and is first back in
      user mode after step k, it returns ret, and some step of the call reaped a zombie child of p with pid ret,
      or ret is -1 and in some step of the call p had no child, or a zombie child whose status could
      not be stored. */
  lemma WaitEnds(run: seq<State>, j: nat, states: seq<State>, steps: seq<(nat, Act)>, p: nat, k: nat, k': nat)
    requires IsRun(run) && j < |run| && IsTrace(states, steps) && states[0] == run[j] && k < |steps| && k' == k + 1
    requires p < |states[0].procs| && states[0].procs[p].pc == WaitLk && InKernel(states, p, k')
    requires p < |states[k'].procs| && states[k'].procs[p].pc == Run
    ensures p < |states[k].procs| && states[k].procs[p].pc.Unwait?
    ensures WaitDecided(states, steps, p, states[k].procs[p].pc.ret, k)
  {
    RunInv(run, j);
    RunFamily(run, j);
    WaitGoesOn(states, steps, p, k);
    TraceFamily(states, steps, k);
    WaitNext(states, steps, p, k, k');
  }

  // ---------------------------------------------------------------- kexit never returns

  predicate Leaving(pc: Pc) {
    pc == ExitFree || Exiting(pc)
  }

  lemma ExitMoves(s: State, h: nat, a: Act, p: nat)
    requires Inv(s) && Enabled(s, h, a) && Actor(a) == Some(p) && p < |s.procs| && Leaving(s.procs[p].pc)
    requires Victim(s, h, a) != Some(p)
    ensures p < |Step(s, h, a).procs| && Leaving(Step(s, h, a).procs[p].pc)
  {
    EnabledHart(s, h, a);
    ExitActs(s, h, a, p);
    match a
    case OfSwitch(_, x) => ExitMoveSwitch(s, h, p, x);
    case OfExit(_, x) => ExitMoveExit(s, h, p, x);
    case OfDie(_, x) => ExitMoveDie(s, h, p, x);
  }

  /** Switching off a hart and back leaves a thread where it was, unless it enters the kernel, slept or is new. */
  lemma SwitchKeeps(s: State, h: nat, p: nat, a: SwitchAct)
    requires SwitchEnabled(s, h, p, a)
    ensures var pc, pc' := s.procs[p].pc, SwitchStep(s, h, p, a).procs[p].pc;
            if a.Enter? then pc == Run && pc' == a.to
            else if a == Resume then pc' == GoesOn(pc)
            else pc' == pc
  {
    if a == Resume {
      ResumeChanges(s, h, p);
    }
  }

  lemma ExitActs(s: State, h: nat, a: Act, p: nat)
    requires Enabled(s, h, a) && Actor(a) == Some(p) && p < |s.procs| && Leaving(s.procs[p].pc)
    ensures a.OfSwitch? || a.OfExit? || a.OfDie?
  {
  }

  lemma ExitMoveSwitch(s: State, h: nat, p: nat, a: SwitchAct)
    requires SwitchEnabled(s, h, p, a) && Leaving(s.procs[p].pc)
    ensures Leaving(SwitchStep(s, h, p, a).procs[p].pc)
  {
    SwitchKeeps(s, h, p, a);
  }

  lemma ExitMoveExit(s: State, h: nat, p: nat, a: ExitAct)
    requires ExitEnabled(s, h, p, a) && Victim(s, h, OfExit(p, a)) != Some(p)
    ensures Leaving(ExitStep(s, h, p, a).procs[p].pc)
  {
  }

  lemma ExitMoveDie(s: State, h: nat, p: nat, a: DieAct)
    requires DieEnabled(s, h, p, a)
    ensures Leaving(DieStep(s, h, p, a).procs[p].pc)
  {
  }

  /** pid has been released, or belongs to slot p, which is exiting. */
  ghost predicate Gone(s: State, p: nat, pid: nat) {
    pid in s.log || (p < |s.procs| && s.procs[p].pid == pid && Leaving(s.procs[p].pc))
  }

  lemma GoneStep(s: State, h: nat, a: Act, p: nat, pid: nat)
    requires Inv(s) && Enabled(s, h, a) && Gone(s, p, pid)
    ensures Gone(Step(s, h, a), p, pid)
  {
    LogStep(s, h, a);
    if pid !in s.log {
      LeavingStep(s, h, a, p);
    }
  }

  lemma LeavingStep(s: State, h: nat, a: Act, p: nat)
    requires Inv(s) && Enabled(s, h, a) && p < |s.procs| && Leaving(s.procs[p].pc)
    ensures |Step(s, h, a).procs| == |s.procs|
    ensures || s.procs[p].pid in Step(s, h, a).log
            || (Step(s, h, a).procs[p].pid == s.procs[p].pid && Leaving(Step(s, h, a).procs[p].pc))
  {
    EnabledHart(s, h, a);
    LogStep(s, h, a);
    if Victim(s, h, a) == Some(p) {
      assert Step(s, h, a).log[|s.log|] == s.procs[p].pid;
    } else {
      NotNamed(s, h, a, p);
      PidStep(s, h, a, p);
      if Actor(a) == Some(p) {
        ExitMoves(s, h, a, p);
      } else {
        OnlyActorMoves(s, h, a, p);
      }
    }
  }

  lemma NotNamed(s: State, h: nat, a: Act, p: nat)
    requires Inv(s) && Enabled(s, h, a) && p < |s.procs| && !s.procs[p].pc.Born?
    ensures Named(s, h, a) != Some(p)
  {
    if Named(s, h, a).Some? {
      assert MakeOk(s, a.p) && ProcOk(s, s.procs[a.p].pc.c);
    }
  }

  /** kexit() does not return, in any run: a process that has called it never executes user code again; later its slot
      is still on the way out, or its pid has been released. */
  lemma {:induction false} ExitIsFinal(states: seq<State>, steps: seq<(nat, Act)>, p: nat, k: nat)
    requires IsTrace(states, steps) && Inv(states[0]) && k <= |steps|
    requires p < |states[0].procs| && Leaving(states[0].procs[p].pc)
    ensures Gone(states[k], p, states[0].procs[p].pid)
  {
    if k > 0 {
      var i := k - 1;
      ExitIsFinal(states, steps, p, i);
      TraceInv(states, steps, i);
      TraceStep(states, steps, i, k);
      GoneStep(states[i], steps[i].0, steps[i].1, p, states[0].procs[p].pid);
    }
  }

  // ---------------------------------------------------------------- what may happen in user mode

  /** In user mode a process may call fork(), wait(), exit() and sleep(n) and may fault, each of which starts where it
      should; the timer may take it off its hart, and on hart 0 tick, as soon as the lock it needs is free. */
  lemma AnythingMayHappen(s: State, h: nat, p: nat, n: nat)
    requires Inv(s) && At(s, h, p) && s.procs[p].pc == Run && n < 0x8000_0000
    ensures Calls(s, h, p, Claim(0), false) && Calls(s, h, p, WaitLk, false) && Calls(s, h, p, ExitFree, false)
    ensures Calls(s, h, p, TickLk(n), false) && Calls(s, h, p, ExitFree, true)
    ensures ProcLock(p) !in s.held ==> SwitchEnabled(s, h, p, Preempt)
    ensures h == 0 && TicksLock !in s.held ==> TickEnabled(s, h, TickFire)
  {
  }

  /** p can enter the kernel at `to`, and then it is there, with interrupts on unless it faulted. */
  predicate Calls(s: State, h: nat, p: nat, to: Pc, fault: bool) {
    && SwitchEnabled(s, h, p, Enter(to, fault))
    && var t := SwitchStep(s, h, p, Enter(to, fault));
       At(t, h, p) && t.procs[p].pc == to && t.harts[h].sie == !fault
  }
}

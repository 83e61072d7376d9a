/** kernel/spinlock.c at the grain of single memory accesses: one spinlock, any number of harts,
    every interleaving of the lock-word swaps and the reads and writes of the owner field. */
module Spinlock {
  import opened Options

  /** Why a hart evaluates holding(): inside lock(), inside unlock(), or for its own sake. */
  datatype Op = ForLock | ForUnlock | Ask

  /** Where a hart is.  `inside` records whether it was in the critical section when it called. */
  datatype Pc =
    | Outside
    | ReadWord(op: Op, inside: bool)          // holding(): about to read lk->lock
    | ReadCpu(op: Op, inside: bool)           // holding(): lk->lock was set, about to read lk->cpu
    | Answered(inside: bool, answer: bool)    // a plain holding() call has its result
    | Spin                                    // about to amoswap 1 into lk->lock
    | SetCpu                                  // got the word, about to write lk->cpu
    | Inside
    | ClearCpu                                // unlock: about to write lk->cpu = NULL
    | ClearWord                               // unlock: about to amoswap 0 into lk->lock
    | Panicked(op: Op, inside: bool)

  datatype State = State(word: nat, cpu: Option<nat>, pcs: seq<Pc>)

  datatype Act = CallLock | CallUnlock | CallHolding | Access | Leave

  function At(s: State, h: nat, pc: Pc): State
    requires h < |s.pcs|
  {
    s.(pcs := s.pcs[h := pc])
  }

  /** A hart may call lock(), unlock() or holding() at any time, also wrongly. */
  predicate Enabled(s: State, h: nat, a: Act) {
    && h < |s.pcs|
    && match a
       case CallLock => s.pcs[h].Outside? || s.pcs[h].Inside?
       case CallUnlock => s.pcs[h].Outside? || s.pcs[h].Inside?
       case CallHolding => s.pcs[h].Outside? || s.pcs[h].Inside?
       case Access => !s.pcs[h].Outside? && !s.pcs[h].Inside? && !s.pcs[h].Answered? && !s.pcs[h].Panicked?
       case Leave => s.pcs[h].Answered?
  }

  /** Where holding() returning `answer` leads. */
  function Decide(op: Op, inside: bool, answer: bool): Pc {
    match op
    case ForLock => if answer then Panicked(ForLock, inside) else Spin
    case ForUnlock => if answer then ClearCpu else Panicked(ForUnlock, inside)
    case Ask => Answered(inside, answer)
  }

  function Step(s: State, h: nat, a: Act): State
    requires Enabled(s, h, a)
  {
    var pc := s.pcs[h];
    match a
    case CallLock => At(s, h, ReadWord(ForLock, pc.Inside?))
    case CallUnlock => At(s, h, ReadWord(ForUnlock, pc.Inside?))
    case CallHolding => At(s, h, ReadWord(Ask, pc.Inside?))
    case Leave => At(s, h, if pc.inside then Inside else Outside)
    case Access =>
      match pc
      case ReadWord(op, inside) => At(s, h, if s.word == 0 then Decide(op, inside, false) else ReadCpu(op, inside))
      case ReadCpu(op, inside) => At(s, h, Decide(op, inside, s.cpu == Some(h)))
      case Spin => At(s, h, if s.word == 0 then SetCpu else Spin).(word := 1)
      case SetCpu => At(s, h, Inside).(cpu := Some(h))
      case ClearCpu => At(s, h, ClearWord).(cpu := None)
      case ClearWord => At(s, h, Outside).(word := 0)
      case _ => s
  }

  predicate Init(s: State) {
    s.word == 0 && s.cpu == None && forall h :: 0 <= h < |s.pcs| ==> s.pcs[h] == Outside
  }

  ghost predicate Next(s: State, t: State) {
    exists h: nat, a: Act :: Enabled(s, h, a) && t == Step(s, h, a)
  }

  ghost predicate IsRun(run: seq<State>) {
    |run| >= 1 && Init(run[0]) && forall i :: 0 <= i < |run| - 1 ==> Next(run[i], run[i + 1])
  }

  // ---------------------------------------------------------------- the invariant

  /** The hart has taken the lock word and not given it back. */
  predicate Owns(pc: Pc) {
    pc.SetCpu? || pc.ClearWord? || Marked(pc)
  }

  /** The owner field names the hart. */
  predicate Marked(pc: Pc) {
    pc.Inside? || pc.ClearCpu? || ((pc.ReadWord? || pc.ReadCpu? || pc.Answered? || pc.Panicked?) && pc.inside)
  }

  /** holding() answers truthfully, and lock() and unlock() panic only when misused. */
  predicate Truthful(pc: Pc) {
    && (pc.Answered? ==> pc.answer == pc.inside)
    && (pc.Panicked? ==> (pc.op == ForLock && pc.inside) || (pc.op == ForUnlock && !pc.inside))
  }

  ghost predicate Inv(s: State) {
    && s.word <= 1
    && (s.word == 1 ==> exists h :: 0 <= h < |s.pcs| && Owns(s.pcs[h]))
    && (forall h :: 0 <= h < |s.pcs| && Owns(s.pcs[h]) ==> s.word == 1)
    && (forall h, k :: 0 <= h < |s.pcs| && 0 <= k < |s.pcs| && Owns(s.pcs[h]) && Owns(s.pcs[k]) ==> h == k)
    && (s.cpu.Some? ==> s.cpu.value < |s.pcs| && Marked(s.pcs[s.cpu.value]))
    && (forall h :: 0 <= h < |s.pcs| ==> Truthful(s.pcs[h]) && (Marked(s.pcs[h]) ==> s.cpu == Some(h)))
  }

  lemma StepInv(s: State, h: nat, a: Act)
    requires Inv(s) && Enabled(s, h, a)
    ensures Inv(Step(s, h, a))
  {
    if a == Access {
      AccessInv(s, h);
    } else {
      CallInv(s, h, a);
    }
  }

  lemma CallInv(s: State, h: nat, a: Act)
    requires Inv(s) && Enabled(s, h, a) && a != Access
    ensures Inv(Step(s, h, a))
  {
    var t := Step(s, h, a);
    assert Owns(t.pcs[h]) == Owns(s.pcs[h]) && Marked(t.pcs[h]) == Marked(s.pcs[h]);
    if s.word == 1 {
      var k :| 0 <= k < |s.pcs| && Owns(s.pcs[k]);
      assert Owns(t.pcs[k]);
    }
  }

  lemma AccessInv(s: State, h: nat)
    requires Inv(s) && Enabled(s, h, Access)
    ensures Inv(Step(s, h, Access))
  {
    if s.pcs[h].Spin? {
      SpinInv(s, h);
    } else if s.pcs[h].ReadWord? || s.pcs[h].ReadCpu? {
      ReadInv(s, h);
    } else {
      var t := Step(s, h, Access);
      assert t.word == 1 ==> Owns(t.pcs[h]);
    }
  }

  lemma ReadInv(s: State, h: nat)
    requires Inv(s) && Enabled(s, h, Access) && (s.pcs[h].ReadWord? || s.pcs[h].ReadCpu?)
    ensures Inv(Step(s, h, Access))
  {
    var t := Step(s, h, Access);
    assert Owns(t.pcs[h]) == Owns(s.pcs[h]) && Marked(t.pcs[h]) == Marked(s.pcs[h]);
    if s.word == 1 {
      var k :| 0 <= k < |s.pcs| && Owns(s.pcs[k]);
      assert Owns(t.pcs[k]);
    }
  }

  lemma SpinInv(s: State, h: nat)
    requires Inv(s) && Enabled(s, h, Access) && s.pcs[h].Spin?
    ensures Inv(Step(s, h, Access))
  {
    var t := Step(s, h, Access);
    if s.word == 1 {
      var k :| 0 <= k < |s.pcs| && Owns(s.pcs[k]);
      assert Owns(t.pcs[k]);
    } else {
      assert Owns(t.pcs[h]);
    }
  }

  lemma {:induction false} RunInv(run: seq<State>, i: nat)
    requires IsRun(run) && i < |run|
    ensures Inv(run[i])
  {
    if i > 0 {
      RunInv(run, i - 1);
      assert Next(run[i - 1], run[i - 1 + 1]);
      var h: nat, a: Act :| Enabled(run[i - 1], h, a) && run[i] == Step(run[i - 1], h, a);
      StepInv(run[i - 1], h, a);
    }
  }

  // ---------------------------------------------------------------- what it means

  /** At most one hart is in the critical section. */
  lemma MutualExclusion(run: seq<State>, i: nat, h: nat, k: nat)
    requires IsRun(run) && i < |run| && h < |run[i].pcs| && k < |run[i].pcs|
    requires run[i].pcs[h].Inside? && run[i].pcs[k].Inside?
    ensures h == k
  {
    RunInv(run, i);
  }

  /** holding() is exact for its caller, lock() panics exactly on a self-lock and unlock() exactly
      when the caller does not hold the lock, whatever the other harts do between the two reads. */
  lemma HoldingIsExact(run: seq<State>, i: nat, h: nat)
    requires IsRun(run) && i < |run| && h < |run[i].pcs|
    ensures run[i].pcs[h].Answered? ==> run[i].pcs[h].answer == run[i].pcs[h].inside
    ensures run[i].pcs[h].Panicked? ==> run[i].pcs[h].op != Ask && run[i].pcs[h].inside == run[i].pcs[h].op.ForLock?
  {
    RunInv(run, i);
    assert Truthful(run[i].pcs[h]);
  }

  /** Misuse always panics: a holding() call in progress gets the true answer at whichever of its two reads
      decides, so the access that decides a lock() by the holder, or an unlock() by anybody else, leads to
      the panic, and no other does. */
  lemma MisusePanics(run: seq<State>, i: nat, h: nat)
    requires IsRun(run) && i < |run| && h < |run[i].pcs| && Enabled(run[i], h, Access)
    requires run[i].pcs[h].ReadWord? || run[i].pcs[h].ReadCpu?
    ensures var pc, pc' := run[i].pcs[h], Step(run[i], h, Access).pcs[h];
            || (pc.ReadWord? && pc' == ReadCpu(pc.op, pc.inside))
            || (match pc.op
                case ForLock => pc' == if pc.inside then Panicked(ForLock, true) else Spin
                case ForUnlock => pc' == if pc.inside then ClearCpu else Panicked(ForUnlock, false)
                case Ask => pc' == Answered(pc.inside, pc.inside))
    ensures run[i].pcs[h].ReadCpu? ==> (run[i].cpu == Some(h)) == run[i].pcs[h].inside
    ensures run[i].pcs[h].ReadWord? && run[i].pcs[h].inside ==> run[i].word != 0
  {
    RunInv(run, i);
    assert Marked(run[i].pcs[h]) == run[i].pcs[h].inside;
  }

  /** The hart that owns the lock word, if any. */
  ghost function Owner(s: State): Option<nat> {
    if exists h :: 0 <= h < |s.pcs| && Owns(s.pcs[h])
    then var h :| 0 <= h < |s.pcs| && Owns(s.pcs[h]); Some(h)
    else None
  }

  lemma OwnerIs(s: State, h: nat)
    requires Inv(s) && h < |s.pcs|
    ensures Owner(s) == Some(h) <==> Owns(s.pcs[h])
  {
  }

  /** The lock word says whether there is an owner. */
  lemma FreeIff(s: State)
    requires Inv(s)
    ensures s.word == 0 <==> Owner(s) == None
  {
  }

  /** Refinement to an atomic lock, access by access: the swap that finds 0 takes the free lock for its hart,
      the store of 0 gives the hart's own lock back, and every other access and every call leaves the
      owner as it is. */
  lemma RefinesAtomicLock(s: State, h: nat, a: Act)
    requires Inv(s) && Enabled(s, h, a)
    ensures var o, o' := Owner(s), Owner(Step(s, h, a));
            if a == Access && s.pcs[h].Spin? && o == None then o' == Some(h)
            else if a == Access && s.pcs[h].ClearWord? then o == Some(h) && o' == None
            else o' == o
  {
    var t := Step(s, h, a);
    StepInv(s, h, a);
    FreeIff(s);
    FreeIff(t);
    OwnerIs(s, h);
    OwnerIs(t, h);
    if Owner(s).Some? && Owner(s) != Some(h) {
      OwnerIs(t, Owner(s).value);
    }
    if Owner(t).Some? && Owner(t) != Some(h) {
      OwnerIs(s, Owner(t).value);
    }
  }

  // ---------------------------------------------------------------- every call ends, and how

  /** A call in progress: what was called, and whether the caller was in the critical section. */
  datatype Call = NoCall | Call(op: Op, inside: bool)

  function CallOf(pc: Pc): Call {
    match pc
    case ReadWord(op, inside) => Call(op, inside)
    case ReadCpu(op, inside) => Call(op, inside)
    case Spin => Call(ForLock, false)
    case SetCpu => Call(ForLock, false)
    case ClearCpu => Call(ForUnlock, true)
    case ClearWord => Call(ForUnlock, true)
    case _ => NoCall
  }

  /** How a call must end: lock() inside unless misused, unlock() outside unless misused, holding() with the truth. */
  function Outcome(c: Call): Pc
    requires c.Call?
  {
    match c.op
    case ForLock => if c.inside then Panicked(ForLock, true) else Inside
    case ForUnlock => if c.inside then Outside else Panicked(ForUnlock, false)
    case Ask => Answered(c.inside, c.inside)
  }

  /** Accesses left in a call, besides failed swaps. */
  function Left(pc: Pc): nat {
    match pc
    case ReadWord(_, _) => 4
    case ReadCpu(_, _) => 3
    case Spin => 2
    case ClearCpu => 2
    case SetCpu => 1
    case ClearWord => 1
    case _ => 0
  }

  /** Each access of a call brings the call nearer to its outcome, except a swap while another hart owns the lock,
      which changes nothing. */
  lemma CallAdvances(s: State, h: nat)
    requires Inv(s) && Enabled(s, h, Access)
    ensures var c, pc, pc' := CallOf(s.pcs[h]), s.pcs[h], Step(s, h, Access).pcs[h];
            && c.Call?
            && (CallOf(pc') == c || pc' == Outcome(c))
            && (Left(pc') < Left(pc)
                || (pc == Spin && Owner(s).Some? && Owner(s) != Some(h) && Step(s, h, Access) == s))
  {
    OwnerIs(s, h);
    FreeIff(s);
    assert Marked(s.pcs[h]) ==> s.cpu == Some(h);
    if Owner(s).Some? {
      assert s.word == 1;
    }
  }

  /** A call starts where it should, and another hart's steps do not disturb it. */
  lemma CallStarts(s: State, h: nat, a: Act)
    requires Enabled(s, h, a) && (a == CallLock || a == CallUnlock || a == CallHolding)
    ensures CallOf(Step(s, h, a).pcs[h]) ==
            Call(if a == CallLock then ForLock else if a == CallUnlock then ForUnlock else Ask, s.pcs[h].Inside?)
  {
  }

  lemma OthersStay(s: State, h: nat, a: Act, k: nat)
    requires Enabled(s, h, a) && k < |s.pcs| && k != h
    ensures |Step(s, h, a).pcs| == |s.pcs| && Step(s, h, a).pcs[k] == s.pcs[k]
  {
  }

  // ---------------------------------------------------------------- calls over runs

  ghost predicate IsTrace(states: seq<State>, steps: seq<(nat, Act)>) {
    && |states| == |steps| + 1
    && forall i :: 0 <= i < |steps| ==>
         Enabled(states[i], steps[i].0, steps[i].1) && states[i + 1] == Step(states[i], steps[i].0, steps[i].1)
  }

  /** The accesses of hart h among the first n steps that are not failed swaps. */
  ghost function Useful(states: seq<State>, steps: seq<(nat, Act)>, h: nat, n: nat): nat
    requires IsTrace(states, steps) && n <= |steps|
  {
    if n == 0 then 0
    else
      var i := n - 1;
      var mine := steps[i].0 == h && steps[i].1 == Access && !(states[i].pcs[h].Spin? && Owner(states[i]).Some?);
      Useful(states, steps, h, i) + if mine then 1 else 0
  }

  lemma TraceStep(states: seq<State>, steps: seq<(nat, Act)>, i: nat, i': nat)
    requires IsTrace(states, steps) && i < |steps| && i' == i + 1
    ensures Enabled(states[i], steps[i].0, steps[i].1) && states[i'] == Step(states[i], steps[i].0, steps[i].1)
  {
  }

  lemma {:induction false} TraceInv(states: seq<State>, steps: seq<(nat, Act)>, n: nat)
    requires IsTrace(states, steps) && Inv(states[0]) && n <= |steps|
    ensures Inv(states[n]) && |states[n].pcs| == |states[0].pcs|
  {
    if n > 0 {
      var i := n - 1;
      TraceInv(states, steps, i);
      TraceStep(states, steps, i, n);
      StepInv(states[i], steps[i].0, steps[i].1);
    }
  }

  /** A call c of hart h, whatever the other harts do: after n steps it is still going on, having made all but Left
      of its accesses, or it has ended at some point with its outcome. */
  lemma {:induction false} CallGoesOn(states: seq<State>, steps: seq<(nat, Act)>, h: nat, c: Call, n: nat)
    requires IsTrace(states, steps) && Inv(states[0]) && h < |states[0].pcs| && n <= |steps|
    requires c.Call? && CallOf(states[0].pcs[h]) == c
    ensures h < |states[n].pcs|
    ensures || Ended(states, h, c, n)
            || (CallOf(states[n].pcs[h]) == c && Useful(states, steps, h, n) + Left(states[n].pcs[h]) <= 4)
    decreases n
  {
    TraceInv(states, steps, n);
    if n > 0 {
      var i := n - 1;
      CallGoesOn(states, steps, h, c, i);
      TraceInv(states, steps, i);
      TraceStep(states, steps, i, n);
      var s, k, a := states[i], steps[i].0, steps[i].1;
      if Ended(states, h, c, i) {
        var m: nat :| m <= i && EndedAt(states, h, c, m);
        assert EndedAt(states, h, c, m);
      } else if k != h {
        OthersStay(s, k, a, h);
      } else {
        InProgress(s, h, a);
        CallAdvances(s, h);
        assert states[n].pcs[h] == Outcome(c) ==> EndedAt(states, h, c, n);
      }
    }
  }

  lemma InProgress(s: State, h: nat, a: Act)
    requires Enabled(s, h, a) && CallOf(s.pcs[h]).Call?
    ensures a == Access
  {
  }

  ghost predicate EndedAt(states: seq<State>, h: nat, c: Call, m: nat) {
    m < |states| && h < |states[m].pcs| && c.Call? && states[m].pcs[h] == Outcome(c)
  }

  ghost predicate Ended(states: seq<State>, h: nat, c: Call, n: nat) {
    exists m: nat :: m <= n && EndedAt(states, h, c, m)
  }

  /** lock(), unlock() and holding() end, in every run: a call that has made four accesses other than failed swaps has
      reached its outcome, so lock() by a hart outside gets the lock once the lock is free when it swaps. */
  lemma CallEnds(run: seq<State>, j: nat, states: seq<State>, steps: seq<(nat, Act)>, h: nat, c: Call)
    requires IsRun(run) && j < |run| && IsTrace(states, steps) && states[0] == run[j] && h < |states[0].pcs|
    requires c.Call? && CallOf(states[0].pcs[h]) == c && Useful(states, steps, h, |steps|) >= 4
    ensures Ended(states, h, c, |steps|)
  {
    RunInv(run, j);
    CallGoesOn(states, steps, h, c, |steps|);
    LeftSome(states[|steps|].pcs[h]);
  }

  lemma LeftSome(pc: Pc)
    ensures CallOf(pc).Call? ==> Left(pc) >= 1
  {
  }
}

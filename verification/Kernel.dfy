/** The process table and physical memory together: every operation keeps the partition of the pages. */
module Kernel {
  import opened Layout
  import opened Memory
  import opened UserSpace
  import opened UserCopy
  import opened ProcMemory
  import opened Fork
  import opened Elf
  import opened Args
  import opened Exec
  import opened SysExec

  lemma BuiltIsTrade(ram0: Ram, free0: set<nat>, ram: Ram, free: set<nat>, s: Slot, first: nat)
    requires Built(ram0, free0, ram, free, s, first)
    ensures Trade(ram0, free0, EMPTY, ram, free, s, first)
  {
    assert SlotPages(ram0, EMPTY) == {};
  }

  lemma NothingIsTrade(ram0: Ram, free0: set<nat>, ram: Ram, first: nat)
    requires SameOutside(ram0, ram, free0)
    ensures Trade(ram0, free0, EMPTY, ram, free0, EMPTY, first)
  {
  }

  lemma ReleaseIsTrade(ram0: Ram, free0: set<nat>, s: Slot, ram: Ram, first: nat)
    requires SameOutside(ram0, ram, SlotPages(ram0, s))
    ensures Trade(ram0, free0, s, ram, free0 + SlotPages(ram0, s), EMPTY, first)
  {
  }

  lemma GaveBackIsTrade(ram0: Ram, free0: set<nat>, s: Slot, ram: Ram, free: set<nat>, s': Slot, first: nat)
    requires GaveBack(ram0, free0, s, ram, free, s', first)
    ensures Trade(ram0, free0, s, ram, free, s', first)
  {
  }

  /** A user's own memory was written. */
  lemma WriteIsTrade(ram0: Ram, free: set<nat>, s: Slot, ram: Ram, first: nat)
    requires SlotOk(ram0, free, s, first) && s.pt != 0 && Overwritten(ram0, ram, free, s.pt, first)
    requires EndsAt(UserView(ram, s.pt), s.sz)
    ensures Trade(ram0, free, s, ram, free, s, first)
  {
  }

  lemma WrittenEnds(view: View, va: nat, bytes: seq<Byte>, sz: nat)
    requires EndsAt(view, sz) && va < 0x1_0000_0000
    ensures EndsAt(Written(view, va, bytes), sz)
  {
  }

  /** A trapframe page was written. */
  lemma FrameIsTrade(ram0: Ram, free: set<nat>, s: Slot, page: Page, first: nat)
    requires SlotOk(ram0, free, s, first) && s.tf != 0 && AllRam(ram0) && RAM_FIRST <= first
    ensures Trade(ram0, free, s, ram0[s.tf := page], free, s, first)
    ensures s.pt != 0 ==> UserView(ram0[s.tf := page], s.pt) == UserView(ram0, s.pt)
    ensures s.pt != 0 ==> SpacePages(ram0[s.tf := page], s.pt) == SpacePages(ram0, s.pt)
  {
    var ram := ram0[s.tf := page];
    assert InRam(s.tf);
    if s.pt != 0 {
      SlotDisjoint(ram0, free, s, first);
      SpaceFrame(ram0, free, ram, free, s.pt, first, {s.tf});
    }
  }

  lemma TradeTrans(ram0: Ram, free0: set<nat>, s0: Slot, ram1: Ram, free1: set<nat>, s1: Slot, ram2: Ram,
                   free2: set<nat>, s2: Slot, first: nat)
    requires Trade(ram0, free0, s0, ram1, free1, s1, first) && Trade(ram1, free1, s1, ram2, free2, s2, first)
    ensures Trade(ram0, free0, s0, ram2, free2, s2, first)
  {
  }

  lemma FrameTraded(ram0: Ram, free0: set<nat>, p: Slot, ram1: Ram, free1: set<nat>, s: Slot, page: Page, ram2: Ram,
                    first: nat)
    requires Trade(ram0, free0, p, ram1, free1, s, first) && s.tf != 0 && s.pt != 0
    requires AllRam(ram1) && RAM_FIRST <= first && ram2 == ram1[s.tf := page]
    ensures Trade(ram0, free0, p, ram2, free1, s, first)
    ensures AllRam(ram2) && UserView(ram2, s.pt) == UserView(ram1, s.pt) && ram2[s.tf] == page
    ensures SpacePages(ram2, s.pt) == SpacePages(ram1, s.pt)
  {
    assert InRam(s.tf);
    FrameIsTrade(ram1, free1, s, page, first);
    TradeTrans(ram0, free0, p, ram1, free1, s, ram2, free1, s, first);
  }

  /** What a failed operation leaves behind: nothing but free pages was written. */
  lemma UntouchedIsTrade(ram0: Ram, free: set<nat>, s: Slot, ram: Ram, first: nat)
    requires SlotOk(ram0, free, s, first) && SameOutside(ram0, ram, free) && AllRam(ram0) && AllRam(ram)
    requires RAM_FIRST <= first
    ensures Trade(ram0, free, s, ram, free, s, first)
    ensures s.pt != 0 ==> UserView(ram, s.pt) == UserView(ram0, s.pt)
    ensures s.tf != 0 ==> ram[s.tf] == ram0[s.tf]
  {
    SlotDisjoint(ram0, free, s, first);
    SlotFrame(ram0, free, ram, free, s, first, free);
  }

  /** The process table changed at most in slot i. */
  ghost predicate OnlyAt(slots0: seq<Slot>, slots: seq<Slot>, i: nat) {
    |slots| == |slots0| && forall j :: 0 <= j < |slots| && j != i ==> slots[j] == slots0[j]
  }

  /** A slot that owns nothing sees nothing change. */
  lemma EveryoneKept(ram: Ram, ram': Ram, slots: seq<Slot>, i: nat, n: nat)
    requires i < |slots| == n && OthersKept(ram, ram', slots, i) && slots[i] == EMPTY && AllRam(ram)
    ensures OthersKept(ram, ram', slots, n)
  {
    assert !InRam(0);
  }

  lemma NobodyTouched(ram: Ram, slots: seq<Slot>, i: nat)
    ensures OthersKept(ram, ram, slots, i) && OnlyAt(slots, slots, i)
  {
  }

  lemma OtherView(ram: Ram, ram': Ram, slots: seq<Slot>, i: nat, p: nat)
    requires OthersKept(ram, ram', slots, i) && p < |slots| && p != i && slots[p].pt in ram
    ensures slots[p].pt in ram' && UserView(ram', slots[p].pt) == UserView(ram, slots[p].pt)
  {
  }

  ghost predicate SomeUnused(slots: seq<Slot>) {
    exists j :: 0 <= j < |slots| && !slots[j].used
  }

  class ProcTable {
    const m: Machine
    const tramp: nat
    const programs: map<Bytes, Image>
    var slots: seq<Slot>
    ghost const all: set<nat>  // the pages slots may own

    ghost predicate Inv()
      reads this, m, m.bitmap
    {
      && m.Valid() && RAM_FIRST < tramp && tramp + 1 < RAM_END
      && (forall name :: name in programs ==> |programs[name].bytes| <= 0x800_0000)
      && Partition(m.ram, m.Free(), slots, m.first, all)
    }

    /** An empty table over the pages that are free after boot. */
    constructor (m: Machine, tramp: nat, programs: map<Bytes, Image>, nproc: nat)
      requires m.Valid() && RAM_FIRST < tramp && tramp + 1 < RAM_END
      requires forall name :: name in programs ==> |programs[name].bytes| <= 0x800_0000
      ensures Inv() && this.m == m && all == m.Free() && |slots| == nproc
    {
      this.m, this.tramp, this.programs := m, tramp, programs;
      slots := seq(nproc, _ => EMPTY);
      all := m.Free();
      new;
      assert forall i :: 0 <= i < nproc ==> SlotPages(m.ram, slots[i]) == {};
    }

    /** Slot i is s from now on, after it traded pages with free memory. */
    method Install(i: nat, s: Slot, ghost ram0: Ram, ghost free0: set<nat>)
      requires m.Valid() && RAM_FIRST < tramp && tramp + 1 < RAM_END
      requires forall name :: name in programs ==> |programs[name].bytes| <= 0x800_0000
      requires i < |slots| && AllRam(ram0) && Partition(ram0, free0, slots, m.first, all)
      requires Trade(ram0, free0, slots[i], m.ram, m.Free(), s, m.first)
      modifies this`slots
      ensures Inv() && OnlyAt(old(slots), slots, i) && slots[i] == s && OthersKept(ram0, m.ram, slots, i)
      ensures s == old(slots)[i] ==> slots == old(slots)
      ensures m.ram == old(m.ram) && m.Free() == old(m.Free())
    {
      PartitionStep(ram0, free0, m.ram, m.Free(), slots, i, s, m.first, all);
      slots := slots[i := s];
    }

    /** releaseproc for slot i, by a reaper. */
    method Release(i: nat)
      requires Inv() && i < |slots|
      modifies this, m, m.bitmap
      ensures Inv() && OnlyAt(old(slots), slots, i) && OthersKept(old(m.ram), m.ram, slots, i) && slots[i] == EMPTY
      ensures m.Free() == old(m.Free() + SlotPages(m.ram, slots[i]))
    {
      ghost var ram0, free0, slots0 := m.ram, m.Free(), slots;
      ReleaseProc(m, slots[i]);
      ReleaseIsTrade(ram0, free0, slots0[i], m.ram, m.first);
      Install(i, EMPTY, ram0, free0);
    }

    /** The first unused slot; |slots| if there is none. */
    method FindUnused() returns (i: nat)
      ensures i <= |slots| && (forall j :: 0 <= j < i ==> slots[j].used) && (i < |slots| ==> !slots[i].used)
      ensures i < |slots| <==> SomeUnused(slots)
    {
      i := 0;
      while i < |slots| && slots[i].used
        invariant i <= |slots| && forall j :: 0 <= j < i ==> slots[j].used
      {
        i := i + 1;
      }
    }

    /** procalloc: the first unused slot gets a kernel stack, a zeroed trapframe and a fresh space, 36 pages in all;
        |slots| if there is no slot or fewer pages, with every page free again. */
    method ProcAlloc() returns (i: nat)
      requires Inv()
      modifies this, m, m.bitmap
      ensures Inv() && OnlyAt(old(slots), slots, i) && OthersKept(old(m.ram), m.ram, slots, i)
      ensures i < |slots| <==> SomeUnused(old(slots)) && |old(m.Free())| >= SLOT_PAGES
      ensures i >= |slots| ==> slots == old(slots) && m.Free() == old(m.Free())
      ensures i < |slots| ==> forall j :: 0 <= j < i ==> old(slots[j].used)
      ensures i < |slots| ==> |m.Free()| == |old(m.Free())| - SLOT_PAGES
      ensures i < |slots| ==> !old(slots[i].used) && slots[i].used && slots[i].pt != 0 && slots[i].kstack != 0
                              && slots[i].tf != 0
      ensures i < |slots| ==> UserView(m.ram, slots[i].pt) == map[] && m.ram[slots[i].tf] == ZERO_PAGE
    {
      ghost var ram0, free0, slots0 := m.ram, m.Free(), slots;
      var n := |slots|;
      NobodyTouched(ram0, slots0, n);
      i := FindUnused();
      if i == n {
        return;
      }
      var s := BuildSlot(m, tramp);
      if s.used {
        BuiltIsTrade(ram0, free0, m.ram, m.Free(), s, m.first);
      } else {
        NothingIsTrade(ram0, free0, m.ram, m.first);
      }
      Install(i, s, ram0, free0);
      if !s.used {
        EveryoneKept(ram0, m.ram, slots0, i, n);
        i := n;
      }
    }

    /** kexit's uvmfree: slot i keeps its kernel stack and trapframe, its address space becomes free. */
    method ExitSpace(i: nat)
      requires Inv() && i < |slots|
      modifies this, m, m.bitmap
      ensures Inv() && OnlyAt(old(slots), slots, i) && OthersKept(old(m.ram), m.ram, slots, i)
      ensures slots[i] == old(slots[i]).(pt := 0)
      ensures m.Free() == old(m.Free() + PtPages(m.ram, slots[i].pt))
    {
      ghost var ram0, free0, slots0 := m.ram, m.Free(), slots;
      var s := slots[i].(pt := 0);
      DropPt(m, slots[i]);
      GaveBackIsTrade(ram0, free0, slots0[i], m.ram, m.Free(), s, m.first);
      Install(i, s, ram0, free0);
    }

    /** fork by slot p: the child in slot i sees what the parent sees, on pages no other slot owns, and its
        trapframe is the parent's with a0 = 0; |slots| exactly if there is no unused slot, the parent has no stack
        page or the copy needs more pages than are free, and then the pages that were free are free. */
    method ForkFrom(p: nat) returns (i: nat)
      requires Inv() && p < |slots| && slots[p].pt != 0 && slots[p].tf != 0
      modifies this, m, m.bitmap
      ensures Inv() && OnlyAt(old(slots), slots, i) && OthersKept(old(m.ram), m.ram, slots, i) && i != p
      ensures i >= |slots| ==> slots == old(slots) && m.Free() == old(m.Free())
      ensures i < |slots| ==> forall j :: 0 <= j < i ==> old(slots[j].used)
      ensures i < |slots| ==> !old(slots[i].used) && slots[i].used && slots[i].pt != 0 && slots[i].tf != 0
      ensures i < |slots| ==> slots[i].sz == slots[p].sz && slots[i].name == slots[p].name
      ensures i < |slots| ==>
                UserView(m.ram, slots[i].pt) == old(UserView(m.ram, slots[p].pt)) == UserView(m.ram, slots[p].pt)
      ensures i < |slots| ==> m.ram[slots[i].tf] == ForkFrame(ZERO_PAGE, old(m.ram[slots[p].tf]))
      ensures i < |slots| <==> SomeUnused(old(slots))
                               && STACK_VPN in old(UserView(m.ram, slots[p].pt))
                               && |old(m.Free())| >= ForkPages(old(UserView(m.ram, slots[p].pt)))
    {
      ghost var ram0, slots0 := m.ram, slots;
      var n := |slots|;
      NobodyTouched(ram0, slots0, n);
      i := FindUnused();
      if i == n {
        return;
      }
      var ok := ForkInto(p, i);
      if ok {
        OtherView(ram0, m.ram, slots, i, p);
      } else {
        EveryoneKept(ram0, m.ram, slots0, i, n);
        i := n;
      }
    }

    /** fork once procalloc has picked slot i. */
    method ForkInto(p: nat, i: nat) returns (ok: bool)
      requires Inv() && p < |slots| && slots[p].pt != 0 && slots[p].tf != 0 && i < |slots| && !slots[i].used
      modifies this, m, m.bitmap
      ensures Inv() && OnlyAt(old(slots), slots, i) && OthersKept(old(m.ram), m.ram, slots, i) && i != p
      ensures !ok ==> m.Free() == old(m.Free()) && slots == old(slots) && slots[i] == EMPTY
      ensures ok ==> slots[i].used && slots[i].pt != 0 && slots[i].tf != 0
      ensures ok ==> slots[i].sz == slots[p].sz && slots[i].name == slots[p].name
      ensures ok ==> UserView(m.ram, slots[i].pt) == old(UserView(m.ram, slots[p].pt))
      ensures ok ==> m.ram[slots[i].tf] == ForkFrame(ZERO_PAGE, old(m.ram[slots[p].tf]))
      ensures ok <==> STACK_VPN in old(UserView(m.ram, slots[p].pt))
                      && |old(m.Free())| >= ForkPages(old(UserView(m.ram, slots[p].pt)))
    {
      ghost var ram0, free0, slots0 := m.ram, m.Free(), slots;
      var parent := slots[p];
      assert slots[i] == EMPTY;
      var s := ForkSlot(m, tramp, parent);
      ok := s.used;
      if ok {
        BuiltIsTrade(ram0, free0, m.ram, m.Free(), s, m.first);
      } else {
        NothingIsTrade(ram0, free0, m.ram, m.first);
      }
      Install(i, s, ram0, free0);
    }

    /** The kernel writes into the memory of slot i (wait storing an exit status, say): no other slot sees it. */
    method StoreToUser(i: nat, va: nat, bytes: seq<Byte>) returns (ok: bool)
      requires Inv() && i < |slots| && slots[i].pt != 0 && va < 0x1_0000_0000 && |bytes| < 0x1_0000_0000
      modifies m`ram
      ensures Inv() && OthersKept(old(m.ram), m.ram, slots, i) && slots == old(slots) && m.Free() == old(m.Free())
      ensures ok <==> RangeAllows(old(UserView(m.ram, slots[i].pt)), va, |bytes|, PTE_W)
      ensures ok ==> UserView(m.ram, slots[i].pt) == Written(old(UserView(m.ram, slots[i].pt)), va, bytes)
    {
      ghost var ram0, free := m.ram, m.Free();
      ghost var done, view := 0, UserView(m.ram, slots[i].pt);
      ok, done := CopyOut(m, slots[i].pt, va, bytes);
      WrittenEnds(view, va, bytes[..done], slots[i].sz);
      WriteIsTrade(ram0, free, slots[i], m.ram, m.first);
      PartitionStep(ram0, free, m.ram, free, slots, i, slots[i], m.first, all);
      assert slots[i := slots[i]] == slots;
    }

    /** The exec system call by slot i, up to the return value in a0.  It fails exactly if the caller's request is
        not feasible: then (a0 = -1) the caller's memory, its slot, its other registers and the free pages
        are as they were.  On success it is the program it asked for, started with the arguments it gave, on
        pages that were free, and exactly the pages of the old address space became free. */
    method ExecCall(i: nat) returns (ret: int, ghost path: Bytes, ghost args: seq<Bytes>)
      requires Inv() && i < |slots| && slots[i].used && slots[i].pt != 0 && slots[i].tf != 0
      modifies this, m, m.bitmap
      ensures Inv() && OnlyAt(old(slots), slots, i) && OthersKept(old(m.ram), m.ram, slots, i) && ret >= -1
      ensures ret == -1 ==> slots == old(slots) && m.Free() == old(m.Free())
      ensures ret == -1 ==> UserView(m.ram, slots[i].pt) == old(UserView(m.ram, slots[i].pt))
      ensures ret == -1 ==> m.ram[slots[i].tf] == WithA0(old(m.ram[slots[i].tf]), -1)
      ensures ret == -1 ==> forall cpath, cand ::
                !Feasible(old(UserView(m.ram, slots[i].pt)), old(m.ram[slots[i].tf]), programs, old(|m.Free()|),
                          cpath, cand)
      ensures ret != -1 ==>
                Feasible(old(UserView(m.ram, slots[i].pt)), old(m.ram[slots[i].tf]), programs, old(|m.Free()|), path,
                         args)
      ensures ret != -1 ==> slots[i].pt != 0 && slots[i].tf == old(slots[i].tf)
                            && Started(UserView(m.ram, slots[i].pt), m.ram[slots[i].tf], programs[path], args,
                                       slots[i].sz)
      ensures ret != -1 ==>
                Swapped(old(m.Free()), m.Free(), SpacePages(m.ram, slots[i].pt), old(SpacePages(m.ram, slots[i].pt)))
    {
      ghost var view0, tf0 := UserView(m.ram, slots[i].pt), m.ram[slots[i].tf];
      ghost var n0, pages0 := |m.Free()|, SpacePages(m.ram, slots[i].pt);
      ret, path, args := ExecSlot(i, slots[i], view0, tf0, n0, pages0);
    }

    /** The same for slot p at index i, whose view, trapframe and pages are view0, tf0 and pages0. */
    method ExecSlot(i: nat, p: Slot, ghost view0: View, ghost tf0: Page, ghost n0: nat, ghost pages0: set<nat>)
      returns (ret: int, ghost path: Bytes, ghost args: seq<Bytes>)
      requires Inv() && i < |slots| && slots[i] == p && p.used && p.pt != 0 && p.tf != 0
      requires view0 == UserView(m.ram, p.pt) && tf0 == m.ram[p.tf] && n0 == |m.Free()|
      requires pages0 == SpacePages(m.ram, p.pt)
      modifies this, m, m.bitmap
      ensures Inv() && OnlyAt(old(slots), slots, i) && OthersKept(old(m.ram), m.ram, slots, i) && ret >= -1
      ensures ret == -1 ==> slots == old(slots) && m.Free() == old(m.Free())
      ensures ret == -1 ==> UserView(m.ram, p.pt) == view0 && m.ram[p.tf] == WithA0(tf0, -1)
      ensures ret == -1 ==> forall cpath, cand :: !Feasible(view0, tf0, programs, n0, cpath, cand)
      ensures ret != -1 ==> Feasible(view0, tf0, programs, n0, path, args)
      ensures ret != -1 ==> slots[i].pt != 0 && slots[i].tf == p.tf
                            && Started(UserView(m.ram, slots[i].pt), m.ram[slots[i].tf], programs[path], args,
                                       slots[i].sz)
      ensures ret != -1 ==> Swapped(old(m.Free()), m.Free(), SpacePages(m.ram, slots[i].pt), pages0)
    {
      ghost var ram0, free0 := m.ram, m.Free();
      var s;
      ghost var sp, o, offs;
      ret, s, path, args, sp, o, offs := ExecRequest(m, tramp, programs, p);
      ghost var ram1 := m.ram;
      if ret == -1 {
        UntouchedIsTrade(ram0, free0, p, ram1, m.first);
        StoreA0(i, s, ret, ram0, free0);
      } else {
        FewArgs(programs, path, args);
        ghost var img := programs[path];
        ArgumentsArrive(ram1, s, p, tf0, img, path, args, sp, o, offs);
        StoreA0(i, s, ret, ram0, free0);
        assert Started(UserView(m.ram, s.pt), m.ram[s.tf], img, args, s.sz);
      }
    }

    /** The end of syscall(): the return value goes to a0 of slot i, which is s now. */
    method StoreA0(i: nat, s: Slot, ret: int, ghost ram0: Ram, ghost free0: set<nat>)
      requires m.Valid() && RAM_FIRST < tramp && tramp + 1 < RAM_END && -1 <= ret < 0x1_0000_0000
      requires forall name :: name in programs ==> |programs[name].bytes| <= 0x800_0000
      requires i < |slots| && AllRam(ram0) && Partition(ram0, free0, slots, m.first, all) && s.pt != 0 && s.tf != 0
      requires Trade(ram0, free0, slots[i], m.ram, m.Free(), s, m.first)
      modifies this`slots, m`ram
      ensures Inv() && OnlyAt(old(slots), slots, i) && slots[i] == s && OthersKept(ram0, m.ram, slots, i)
      ensures m.Free() == old(m.Free())
      ensures s == old(slots)[i] ==> slots == old(slots)
      ensures s.tf in old(m.ram) && s.pt in old(m.ram)
      ensures UserView(m.ram, s.pt) == old(UserView(m.ram, s.pt))
      ensures SpacePages(m.ram, s.pt) == old(SpacePages(m.ram, s.pt))
      ensures m.ram[s.tf] == WithA0(old(m.ram)[s.tf], ret)
    {
      ghost var ram1, free1, p := m.ram, m.Free(), slots[i];
      assert InRam(s.tf);
      var page := WithA0(m.ram[s.tf], ret);
      m.ram := m.ram[s.tf := page];
      FrameTraded(ram0, free0, p, ram1, free1, s, page, m.ram, m.first);
      Install(i, s, ram0, free0);
    }
  }
}

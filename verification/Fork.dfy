/** kernel/proc.c: the memory side of procalloc and fork. */
module Fork {
  import opened Layout
  import opened PageTable
  import opened Memory
  import opened Space
  import opened UserSpace
  import opened PageCount
  import opened Grow
  import opened InitSpace
  import opened CopySpace
  import opened ProcMemory

  /** A slot built only from formerly free pages. */
  ghost predicate Built(ram0: Ram, free0: set<nat>, ram: Ram, free: set<nat>, s: Slot, first: nat) {
    && SlotOk(ram, free, s, first)
    && free + SlotPages(ram, s) == free0
    && SameOutside(ram0, ram, free0)
  }

  const SLOT_PAGES: nat := 36  // kernel stack, trapframe and a fresh table

  lemma KstackTaken(ram: Ram, free: set<nat>, k: nat, first: nat)
    requires k in free && AllAllocatable(free, first) && RAM_FIRST <= first
    ensures Built(ram, free, ram, free - {k}, Slot(true, 0, k, 0, 0, []), first)
  {
  }

  lemma TfTaken(ram0: Ram, free0: set<nat>, ram1: Ram, free1: set<nat>, k: nat, t: nat, first: nat)
    requires Built(ram0, free0, ram1, free1, Slot(true, 0, k, 0, 0, []), first)
    requires t in free1 && AllAllocatable(free0, first) && RAM_FIRST <= first
    ensures Built(ram0, free0, ram1[t := ZERO_PAGE], free1 - {t}, Slot(true, 0, k, t, 0, []), first)
  {
  }

  lemma PtTaken(ram0: Ram, free0: set<nat>, ram1: Ram, free1: set<nat>, ram2: Ram, free2: set<nat>, k: nat, t: nat,
                root: nat, first: nat)
    requires Built(ram0, free0, ram1, free1, Slot(true, 0, k, t, 0, []), first) && RAM_FIRST <= first && k != 0
    requires t != 0
    requires root != 0 && SpaceOk(ram2, free2, root, first) && UserView(ram2, root) == map[]
    requires free2 + SpacePages(ram2, root) == free1 && SameOutside(ram1, ram2, free1) && AllRam(ram1)
    ensures Built(ram0, free0, ram2, free2, Slot(true, root, k, t, 0, []), first)
    ensures ram2[t] == ram1[t]
  {
    SpaceDisjoint(ram2, free2, root, first);
    assert InRam(t);
  }

  lemma BuiltFree(ram0: Ram, free0: set<nat>, ram: Ram, free: set<nat>, s: Slot, first: nat, ram': Ram)
    requires Built(ram0, free0, ram, free, s, first) && SameOutside(ram, ram', SlotPages(ram, s))
    ensures SameOutside(ram0, ram', free0) && free + SlotPages(ram, s) == free0
  {
  }

  /** The fail path of procalloc and fork. */
  method Abandon(m: Machine, s: Slot, ghost ram0: Ram, ghost free0: set<nat>)
    requires m.Valid() && Built(ram0, free0, m.ram, m.Free(), s, m.first)
    modifies m, m.bitmap
    ensures m.Valid() && m.Free() == free0 && SameOutside(ram0, m.ram, free0)
  {
    ghost var ram1, free1 := m.ram, m.Free();
    ReleaseProc(m, s);
    BuiltFree(ram0, free0, ram1, free1, s, m.first, m.ram);
  }

  /** procalloc's allocations: a kernel stack, a zeroed trapframe and a fresh table; all or nothing. */
  method BuildSlot(m: Machine, tramp: nat) returns (s: Slot)
    requires m.Valid() && RAM_FIRST < tramp && tramp + 1 < RAM_END
    modifies m, m.bitmap
    ensures m.Valid()
    ensures s.used ==> Built(old(m.ram), old(m.Free()), m.ram, m.Free(), s, m.first)
    ensures s.used ==> s.pt != 0 && s.kstack != 0 && s.tf != 0 && s.sz == 0 && s.name == []
    ensures s.used ==> UserView(m.ram, s.pt) == map[] && m.ram[s.tf] == ZERO_PAGE
    ensures !s.used ==> s == EMPTY && m.Free() == old(m.Free()) && SameOutside(old(m.ram), m.ram, old(m.Free()))
    ensures s.used <==> |old(m.Free())| >= SLOT_PAGES
    ensures s.used ==> |m.Free()| == |old(m.Free())| - SLOT_PAGES && TableSet(m.ram, s.pt) == KernelTables()
  {
    ghost var ram0, free0 := m.ram, m.Free();
    FreeAllocatable(m);
    var k := m.Kalloc();
    if k == 0 {
      return EMPTY;
    }
    OneLess(free0, k / 4096);
    KstackTaken(ram0, free0, k / 4096, m.first);
    s := AddTrapframe(m, tramp, k / 4096, ram0, free0);
  }

  method AddTrapframe(m: Machine, tramp: nat, k: nat, ghost ram0: Ram, ghost free0: set<nat>) returns (s: Slot)
    requires m.Valid() && RAM_FIRST < tramp && tramp + 1 < RAM_END && k != 0 && AllAllocatable(free0, m.first)
    requires Built(ram0, free0, m.ram, m.Free(), Slot(true, 0, k, 0, 0, []), m.first) && |m.Free()| == |free0| - 1
    modifies m, m.bitmap
    ensures m.Valid()
    ensures s.used ==> Built(ram0, free0, m.ram, m.Free(), s, m.first)
    ensures s.used ==> s.pt != 0 && s.kstack != 0 && s.tf != 0 && s.sz == 0 && s.name == []
    ensures s.used ==> UserView(m.ram, s.pt) == map[] && m.ram[s.tf] == ZERO_PAGE
    ensures !s.used ==> s == EMPTY && m.Free() == free0 && SameOutside(ram0, m.ram, free0)
    ensures s.used <==> |free0| >= SLOT_PAGES
    ensures s.used ==> |m.Free()| == |free0| - SLOT_PAGES && TableSet(m.ram, s.pt) == KernelTables()
  {
    ghost var ram1, free1 := m.ram, m.Free();
    var t := m.Kalloc();
    if t == 0 {
      Abandon(m, Slot(true, 0, k, 0, 0, []), ram0, free0);
      return EMPTY;
    }
    OneLess(free1, t / 4096);
    m.ZeroPage(t);
    TfTaken(ram0, free0, ram1, free1, k, t / 4096, m.first);
    s := AddTable(m, tramp, k, t / 4096, ram0, free0);
  }

  method AddTable(m: Machine, tramp: nat, k: nat, t: nat, ghost ram0: Ram, ghost free0: set<nat>) returns (s: Slot)
    requires m.Valid() && RAM_FIRST < tramp && tramp + 1 < RAM_END && k != 0 && t != 0
    requires Built(ram0, free0, m.ram, m.Free(), Slot(true, 0, k, t, 0, []), m.first) && t in m.ram
    requires m.ram[t] == ZERO_PAGE
    requires |m.Free()| == |free0| - 2
    modifies m, m.bitmap
    ensures m.Valid()
    ensures s.used ==> Built(ram0, free0, m.ram, m.Free(), s, m.first)
    ensures s.used ==> s.pt != 0 && s.kstack != 0 && s.tf != 0 && s.sz == 0 && s.name == []
    ensures s.used ==> UserView(m.ram, s.pt) == map[] && m.ram[s.tf] == ZERO_PAGE
    ensures !s.used ==> s == EMPTY && m.Free() == free0 && SameOutside(ram0, m.ram, free0)
    ensures s.used <==> |free0| >= SLOT_PAGES
    ensures s.used ==> |m.Free()| == |free0| - SLOT_PAGES && TableSet(m.ram, s.pt) == KernelTables()
  {
    ghost var ram1, free1 := m.ram, m.Free();
    var root := InitUserPt(m, tramp);
    if root == 0 {
      TableFailed(ram0, free0, ram1, free1, m.ram, Slot(true, 0, k, t, 0, []), m.first);
      Abandon(m, Slot(true, 0, k, t, 0, []), ram0, free0);
      return EMPTY;
    }
    PtTaken(ram0, free0, ram1, free1, m.ram, m.Free(), k, t, root, m.first);
    s := Slot(true, root, k, t, 0, []);
  }

  lemma TableFailed(ram0: Ram, free0: set<nat>, ram1: Ram, free: set<nat>, ram2: Ram, s: Slot, first: nat)
    requires Built(ram0, free0, ram1, free, s, first) && SameOutside(ram1, ram2, free) && AllRam(ram1) && AllRam(ram2)
    requires RAM_FIRST <= first
    ensures Built(ram0, free0, ram2, free, s, first)
  {
    SlotDisjoint(ram1, free, s, first);
    SlotFrame(ram1, free, ram2, free, s, first, free);
  }

  // ---------------------------------------------------------------- fork

  /** The child's trapframe: the parent's 152 bytes, with k_sp kept and a0 set to 0. */
  function ForkFrame(child: Page, parent: Page): Page {
    SetWord(SetWord(Blit(child, 0, parent[..152]), 0, Word(child, 0)), 15, 0)
  }

  /** The child resumes with the parent's registers, except that fork returns 0 to it. */
  lemma ForkFrameIs(child: Page, parent: Page, k: nat)
    requires k < 38
    ensures Word(ForkFrame(child, parent), k) ==
            if k == 15 then 0 else if k == 0 then Word(child, 0) else Word(parent, k)
  {
    var b := Blit(child, 0, parent[..152]);
    WordAfterSet(SetWord(b, 0, Word(child, 0)), 15, 0, k);
    WordAfterSet(b, 0, Word(child, 0), k);
    assert b[4 * k] == parent[4 * k] && b[4 * k + 1] == parent[4 * k + 1];
    assert b[4 * k + 2] == parent[4 * k + 2] && b[4 * k + 3] == parent[4 * k + 3];
  }

  /** After procalloc, parent and child share nothing. */
  lemma ForkReady(ram0: Ram, free0: set<nat>, ram: Ram, free: set<nat>, p: Slot, s: Slot, first: nat)
    requires SlotOk(ram0, free0, p, first) && Built(ram0, free0, ram, free, s, first)
    requires AllRam(ram0) && AllRam(ram) && RAM_FIRST <= first && p.pt != 0 && p.tf != 0 && s.pt != 0
    ensures Apart(ram, free, p.pt, s.pt, first) && UserView(ram, p.pt) == UserView(ram0, p.pt)
    ensures EndsAt(UserView(ram, p.pt), p.sz) && ram[p.tf] == ram0[p.tf]
  {
    SlotDisjoint(ram0, free0, p, first);
    SlotFrame(ram0, free0, ram, free, p, first, free0);
  }

  /** uvmcopy, whether it succeeded or not, leaves a slot releaseproc can take apart. */
  lemma ForkGrown(ram0: Ram, free0: set<nat>, ram1: Ram, free1: set<nat>, ram2: Ram, free2: set<nat>, s: Slot,
                  sz: nat, first: nat)
    requires Built(ram0, free0, ram1, free1, s, first) && s.pt != 0 && s.tf != 0 && s.used
    requires Kept(ram1, free1, ram2, free2, s.pt, first) && AllRam(ram1) && AllRam(ram2) && RAM_FIRST <= first
    requires sz % 4096 == 0 && sz <= UART_0 && EndsAt(UserView(ram2, s.pt), sz)
    ensures Built(ram0, free0, ram2, free2, s.(sz := sz), first) && ram2[s.tf] == ram1[s.tf]
  {
    SlotDisjoint(ram1, free1, s, first);
    SpaceDisjoint(ram2, free2, s.pt, first);
    assert s.tf in ram1 by { assert InRam(s.tf); }
  }

  /** Writing the child's trapframe page changes nothing else. */
  lemma TfWritten(ram0: Ram, free0: set<nat>, ram: Ram, free: set<nat>, s: Slot, s': Slot, page: Page, first: nat)
    requires Built(ram0, free0, ram, free, s, first) && s.tf != 0 && s.pt != 0 && s.used && s' == s.(name := s'.name)
    requires AllRam(ram) && RAM_FIRST <= first
    ensures Built(ram0, free0, ram[s.tf := page], free, s', first)
    ensures UserView(ram[s.tf := page], s.pt) == UserView(ram, s.pt)
  {
    SlotDisjoint(ram, free, s, first);
    assert InRam(s.tf);
    SpaceFrame(ram, free, ram[s.tf := page], free, s.pt, first, {s.tf});
  }

  lemma StillParent(ram0: Ram, free0: set<nat>, ram: Ram, free: set<nat>, p: Slot, first: nat)
    requires SlotOk(ram0, free0, p, first) && SameOutside(ram0, ram, free0) && AllRam(ram0) && AllRam(ram)
    requires RAM_FIRST <= first
    requires p.tf != 0 && p.pt != 0
    ensures ram[p.tf] == ram0[p.tf]
  {
    assert InRam(p.tf);
  }

  /** What fork takes: a slot's pages, a page for each page of the parent and the tables for those. */
  ghost function ForkPages(view: View): nat {
    SLOT_PAGES + |view| + |RegionsOf(view)|
  }

  lemma CopyNeeds(ram: Ram, free: set<nat>, child: nat, view: View, free0: set<nat>)
    requires child in ram && TableSet(ram, child) == KernelTables() && forall v :: v in view ==> UserVpn(v)
    requires |free| == |free0| - SLOT_PAGES
    ensures CopyShort(ram, free, child, view) <==> |free0| < ForkPages(view)
  {
    forall i | i in RegionsOf(view)
      ensures i !in KernelTables()
    {
      var v :| v in view && i == v / 1024;
      UserRegion(v);
    }
    DisjointCount(KernelTables(), RegionsOf(view));
  }

  lemma UserRegion(v: nat)
    requires UserVpn(v)
    ensures v / 1024 !in KernelTables()
  {
  }

  /** fork: the child owns formerly free pages only, sees exactly what the parent sees and resumes with the
      parent's registers, a0 = 0.  It fails exactly if there are fewer free pages than that takes (or the
      parent has no stack), and then every page is free again.  In no case is anything but free pages written:
      the parent, and every other process, is untouched. */
  method ForkSlot(m: Machine, tramp: nat, p: Slot) returns (s: Slot)
    requires m.Valid() && RAM_FIRST < tramp && tramp + 1 < RAM_END
    requires SlotOk(m.ram, m.Free(), p, m.first) && p.pt != 0 && p.tf != 0
    modifies m, m.bitmap
    ensures m.Valid()
    ensures s.used <==> STACK_VPN in old(UserView(m.ram, p.pt))
                        && |old(m.Free())| >= ForkPages(old(UserView(m.ram, p.pt)))
    ensures SameOutside(old(m.ram), m.ram, old(m.Free()))
    ensures s.used ==> Built(old(m.ram), old(m.Free()), m.ram, m.Free(), s, m.first)
    ensures s.used ==> s.pt != 0 && s.kstack != 0 && s.tf != 0 && s.sz == p.sz && s.name == p.name
    ensures s.used ==> UserView(m.ram, s.pt) == old(UserView(m.ram, p.pt))
    ensures s.used ==> m.ram[s.tf] == ForkFrame(ZERO_PAGE, old(m.ram[p.tf]))
    ensures !s.used ==> s == EMPTY && m.Free() == old(m.Free())
  {
    ghost var ram0, free0 := m.ram, m.Free();
    s := BuildSlot(m, tramp);
    if !s.used {
      return;
    }
    ForkReady(ram0, free0, m.ram, m.Free(), p, s, m.first);
    s := FillSlot(m, p, s, ram0, free0);
  }

  method FillSlot(m: Machine, p: Slot, blank: Slot, ghost ram0: Ram, ghost free0: set<nat>) returns (s: Slot)
    requires m.Valid() && AllRam(ram0) && SlotOk(ram0, free0, p, m.first) && p.pt != 0 && p.tf != 0
    requires Built(ram0, free0, m.ram, m.Free(), blank, m.first) && blank.used
    requires blank.pt != 0 && blank.kstack != 0 && blank.tf != 0 && blank.name == []
    requires UserView(m.ram, blank.pt) == map[] && m.ram[blank.tf] == ZERO_PAGE
    requires Apart(m.ram, m.Free(), p.pt, blank.pt, m.first) && UserView(m.ram, p.pt) == UserView(ram0, p.pt)
    requires TableSet(m.ram, blank.pt) == KernelTables() && |m.Free()| == |free0| - SLOT_PAGES
    modifies m, m.bitmap
    ensures m.Valid()
    ensures s.used <==> STACK_VPN in UserView(ram0, p.pt) && |free0| >= ForkPages(UserView(ram0, p.pt))
    ensures SameOutside(ram0, m.ram, free0)
    ensures s.used ==> Built(ram0, free0, m.ram, m.Free(), s, m.first)
    ensures s.used ==> s.pt != 0 && s.kstack != 0 && s.tf != 0 && s.sz == p.sz && s.name == p.name
    ensures s.used ==> UserView(m.ram, s.pt) == UserView(ram0, p.pt)
    ensures s.used ==> m.ram[s.tf] == ForkFrame(ZERO_PAGE, ram0[p.tf])
    ensures !s.used ==> s == EMPTY && m.Free() == free0
  {
    ghost var ram1, free1, view := m.ram, m.Free(), UserView(m.ram, p.pt);
    CopyNeeds(ram1, free1, blank.pt, view, free0);
    var ok := UvmCopy(m, p.pt, blank.pt, p.sz);
    s := blank.(sz := p.sz);
    ForkGrown(ram0, free0, ram1, free1, m.ram, m.Free(), blank, p.sz, m.first);
    if !ok {
      Abandon(m, s, ram0, free0);
      return EMPTY;
    }
    s := CopyFrame(m, p, s, ram0, free0);
  }

  /** fork's copies of the trapframe and the name. */
  method CopyFrame(m: Machine, p: Slot, blank: Slot, ghost ram0: Ram, ghost free0: set<nat>) returns (s: Slot)
    requires m.Valid() && AllRam(ram0) && SlotOk(ram0, free0, p, m.first) && p.pt != 0 && p.tf != 0
    requires Built(ram0, free0, m.ram, m.Free(), blank, m.first) && blank.used && blank.pt != 0 && blank.tf != 0
    modifies m`ram
    ensures m.Valid() && m.Free() == old(m.Free())
    ensures Built(ram0, free0, m.ram, m.Free(), s, m.first) && s == blank.(name := p.name)
    ensures UserView(m.ram, s.pt) == old(UserView(m.ram, blank.pt))
    ensures m.ram[s.tf] == ForkFrame(old(m.ram[blank.tf]), ram0[p.tf])
  {
    StillParent(ram0, free0, m.ram, m.Free(), p, m.first);
    var frame := ForkFrame(m.ram[blank.tf], m.ram[p.tf]);
    s := blank.(name := p.name);
    TfWritten(ram0, free0, m.ram, m.Free(), blank, s, frame, m.first);
    m.ram := m.ram[s.tf := frame];
  }
}

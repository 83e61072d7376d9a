/** init_userpt of kernel/proc.c: a user page table starts with the kernel's own mappings. */
module InitSpace {
  import opened Layout
  import opened PageTable
  import opened Memory
  import opened Vm
  import opened Space
  import opened UserSpace
  import opened PageCount
  import opened Grow

  const READ_EXEC: nat := 11   // PTE_R | PTE_X | PTE_V
  const READ_WRITE: nat := 7   // PTE_R | PTE_W | PTE_V

  predicate KernelVpn(v: nat) {
    InRam(v) || v == UART_VPN
  }

  function KernelPte(tramp: nat, v: nat): nat {
    MakePte(v * 4096, if InRam(v) && v <= tramp then READ_EXEC else READ_WRITE)
  }

  /** Every user table maps RAM and the UART to themselves, text up to and including the trampoline
      executable, the rest writable, and nothing for the user. */
  ghost function KernelMap(tramp: nat): map<nat, nat> {
    map v: nat | v < VPNS && KernelVpn(v) :: KernelPte(tramp, v)
  }

  /** The part of it below page end, without the UART. */
  ghost function RamMap(tramp: nat, end: nat): map<nat, nat> {
    map v: nat | v < VPNS && Between(v, RAM_FIRST, end) :: KernelPte(tramp, v)
  }

  /** n pages from v0 on, mapped to themselves. */
  ghost function IdRun(v0: nat, n: nat, flags: nat): map<nat, nat> {
    map v: nat | v < VPNS && Between(v, v0, v0 + n) :: MakePte(v * 4096, flags)
  }

  lemma RunIs(v0: nat, n: nat, flags: nat)
    requires v0 + n <= VPNS && v0 < VPNS
    ensures Run(v0, v0, n, flags) == IdRun(v0, n, flags)
  {
    forall v: nat | Between(v, v0, v0 + n)
      ensures Nth(v0, Offset(v, v0)) == v
    {
      NthIs(v0, v - v0);
    }
    assert forall v: nat :: v < VPNS ==> (Offset(v, v0) < n <==> Between(v, v0, v0 + n));
  }

  lemma RamMapNext(tramp: nat, a: nat, n: nat, flags: nat)
    requires RAM_FIRST <= a && a + n <= RAM_END
    requires if a <= tramp then flags == READ_EXEC && a + n <= tramp + 1 else flags == READ_WRITE
    ensures RamMap(tramp, a) + IdRun(a, n, flags) == RamMap(tramp, a + n)
  {
  }

  lemma RamMapAll(tramp: nat)
    ensures RamMap(tramp, RAM_END) + IdRun(UART_VPN, 1, READ_WRITE) == KernelMap(tramp)
    ensures RamMap(tramp, RAM_FIRST) == map[]
  {
  }

  lemma KernelMapOk(tramp: nat, tables: set<nat>, free: set<nat>, first: nat)
    ensures FlatOk(KernelMap(tramp), tables, free, first)
    ensures Owned(KernelMap(tramp)) == {}
  {
    forall v | v in KernelMap(tramp)
      ensures !HasBit(KernelMap(tramp)[v], PTE_U) && !UserVpn(v)
    {
      PteBits(v * 4096, READ_EXEC);
      PteBits(v * 4096, READ_WRITE);
    }
  }

  /** What the kernel's mappings allow: each page is mapped to itself, never for the user; text and trampoline can be
      executed and not written, everything else written and not executed. */
  lemma KernelRights(tramp: nat, v: nat)
    requires v in KernelMap(tramp)
    ensures var e, text := KernelMap(tramp)[v], InRam(v) && v <= tramp;
            && IsValid(e) && Ppn(e) == v && !HasBit(e, PTE_U) && HasBit(e, PTE_R)
            && HasBit(e, PTE_X) == text && HasBit(e, PTE_W) == !text
  {
    PteBits(v * 4096, READ_EXEC);
    PteBits(v * 4096, READ_WRITE);
    PteRoundTrip(v * 4096, READ_EXEC);
    PteRoundTrip(v * 4096, READ_WRITE);
  }

  /** A table under construction: it holds what was taken from the free pages, nothing else was written. */
  ghost predicate Building(ram0: Ram, free0: set<nat>, ram: Ram, free: set<nat>, root: nat) {
    && TableOk(ram, free, root) && free + Tables(ram, root) == free0 && SameOutside(ram0, ram, free0)
  }

  lemma BuildingNext(ram0: Ram, free0: set<nat>, ram1: Ram, free1: set<nat>, ram2: Ram, free2: set<nat>, root: nat)
    requires Building(ram0, free0, ram1, free1, root) && TableOk(ram2, free2, root)
    requires Grown(ram1, free1, ram2, free2, root)
    ensures Building(ram0, free0, ram2, free2, root)
  {
  }

  // ---------------------------------------------------------------- how many tables

  const KERNEL_TABLES: nat := 33
  const FRESH_PAGES: nat := 34  // with the root

  /** The tables of the kernel's mappings: 32 for the 128 MB of RAM and one for the UART. */
  ghost function KernelTables(): set<nat> {
    PagesIn(512, 544) + {64}
  }

  lemma KernelTableCount()
    ensures |KernelTables()| == KERNEL_TABLES
  {
    PagesInCount(512, 544);
    OneMore(PagesIn(512, 544), 64);
  }

  lemma MappedTable(ram: Ram, root: nat, v: nat)
    requires root in ram && v in Flat(ram, root)
    ensures v / 1024 in TableSet(ram, root)
  {
  }

  lemma AllKernelTables(ram: Ram, root: nat, tramp: nat)
    requires root in ram && Flat(ram, root) == KernelMap(tramp)
    ensures KernelTables() <= TableSet(ram, root)
  {
    forall i | i in KernelTables()
      ensures i in TableSet(ram, root)
    {
      assert KernelVpn(i * 1024);
      MappedTable(ram, root, i * 1024);
    }
  }

  lemma KernelIndex(v0: nat, n: nat, flags: nat, v: nat)
    requires v0 + n < VPNS && v in IdRun(v0, n, flags)
    requires (RAM_FIRST <= v0 && v0 + n <= RAM_END) || (v0 == UART_VPN && n == 1)
    ensures v / 1024 in KernelTables()
  {
    assert Between(v, v0, v0 + n);
    if v0 != UART_VPN {
      assert Between(v / 1024, 512, 544);
    }
  }

  lemma BuildingCount(ram0: Ram, free0: set<nat>, ram: Ram, free: set<nat>, root: nat)
    requires Building(ram0, free0, ram, free, root)
    ensures |free0| == |free| + 1 + |TableSet(ram, root)|
  {
    TableCount(ram, root);
    DisjointCount(free, Tables(ram, root));
  }

  /** Memory ran out while a kernel table was missing. */
  lemma BuildingShort(ram0: Ram, free0: set<nat>, ram: Ram, free: set<nat>, root: nat)
    requires Building(ram0, free0, ram, free, root) && free == {} && TableSet(ram, root) < KernelTables()
    ensures |free0| < FRESH_PAGES
  {
    BuildingCount(ram0, free0, ram, free, root);
    KernelTableCount();
    ProperCount(TableSet(ram, root), KernelTables());
  }

  lemma ProperCount(a: set<nat>, b: set<nat>)
    requires a < b
    ensures |a| < |b|
  {
    var x :| x in b && x !in a;
    OneMore(a, x);
    SubsetCount(a + {x}, b);
  }

  lemma RangeAddress(v0: nat, n: nat)
    requires v0 + n < VPNS
    ensures v0 * 4096 / 4096 == v0 && v0 * 4096 % 4096 == 0 && n * 4096 / 4096 == n && n * 4096 % 4096 == 0
    ensures v0 * 4096 < 0x1_0000_0000 && n * 4096 < 0x1_0000_0000
  {
  }

  /** One of the four mappages calls: an identity mapping of n pages. */
  method MapKernel(m: Machine, root: nat, v0: nat, n: nat, flags: nat, ghost ram0: Ram, ghost free0: set<nat>)
    returns (ok: bool)
    requires m.Valid() && Building(ram0, free0, m.ram, m.Free(), root) && 0 < n && v0 + n < VPNS && flags < 1024
    requires forall v :: v in Flat(m.ram, root) ==> !Between(v, v0, v0 + n)
    requires (RAM_FIRST <= v0 && v0 + n <= RAM_END) || (v0 == UART_VPN && n == 1)
    requires TableSet(m.ram, root) <= KernelTables()
    modifies m, m.bitmap
    ensures m.Valid() && Building(ram0, free0, m.ram, m.Free(), root)
    ensures ok ==> Flat(m.ram, root) == old(Flat(m.ram, root)) + IdRun(v0, n, flags)
    ensures TableSet(m.ram, root) <= KernelTables()
    ensures !ok ==> m.Free() == {} && TableSet(m.ram, root) < KernelTables()
  {
    ghost var ram1, free1 := m.ram, m.Free();
    RangeAddress(v0, n);
    RunIs(v0, n, flags);
    ghost var done;
    forall v | v in IdRun(v0, n, flags)
      ensures v / 1024 in KernelTables()
    {
      KernelIndex(v0, n, flags, v);
    }
    ok, done := MapPages(m, root, v0 * 4096, v0 * 4096, n * 4096, flags, KernelTables());
    BuildingNext(ram0, free0, ram1, free1, m.ram, m.Free(), root);
  }

  /** A mappages call that continues the RAM mappings. */
  method MapRam(m: Machine, root: nat, v0: nat, n: nat, flags: nat, ghost end: nat, ghost tramp: nat, ghost ram0: Ram,
                ghost free0: set<nat>)
    returns (ok: bool)
    requires m.Valid() && Building(ram0, free0, m.ram, m.Free(), root) && 0 < n && RAM_FIRST <= v0
    requires v0 + n == end <= RAM_END
    requires Flat(m.ram, root) == RamMap(tramp, v0) && TableSet(m.ram, root) <= KernelTables()
    requires if v0 <= tramp then flags == READ_EXEC && v0 + n <= tramp + 1 else flags == READ_WRITE
    modifies m, m.bitmap
    ensures m.Valid() && Building(ram0, free0, m.ram, m.Free(), root)
    ensures ok ==> Flat(m.ram, root) == RamMap(tramp, end)
    ensures TableSet(m.ram, root) <= KernelTables()
    ensures !ok ==> m.Free() == {} && TableSet(m.ram, root) < KernelTables()
  {
    RamMapNext(tramp, v0, n, flags);
    ok := MapKernel(m, root, v0, n, flags, ram0, free0);
  }

  method MapUart(m: Machine, root: nat, ghost tramp: nat, ghost ram0: Ram, ghost free0: set<nat>) returns (ok: bool)
    requires m.Valid() && Building(ram0, free0, m.ram, m.Free(), root) && Flat(m.ram, root) == RamMap(tramp, RAM_END)
    requires TableSet(m.ram, root) <= KernelTables()
    modifies m, m.bitmap
    ensures m.Valid() && Building(ram0, free0, m.ram, m.Free(), root)
    ensures ok ==> Flat(m.ram, root) == KernelMap(tramp)
    ensures TableSet(m.ram, root) <= KernelTables()
    ensures !ok ==> m.Free() == {} && TableSet(m.ram, root) < KernelTables()
  {
    RamMapAll(tramp);
    ok := MapKernel(m, root, UART_VPN, 1, READ_WRITE, ram0, free0);
  }

  /** The four kernel mappings; tramp is the trampoline's page. */
  method MapKernelAll(m: Machine, root: nat, tramp: nat, ghost ram0: Ram, ghost free0: set<nat>) returns (ok: bool)
    requires m.Valid() && Building(ram0, free0, m.ram, m.Free(), root)
    requires Flat(m.ram, root) == map[] && TableSet(m.ram, root) == {} && RAM_FIRST < tramp && tramp + 1 < RAM_END
    modifies m, m.bitmap
    ensures m.Valid() && Building(ram0, free0, m.ram, m.Free(), root)
    ensures ok ==> Flat(m.ram, root) == KernelMap(tramp)
    ensures TableSet(m.ram, root) <= KernelTables()
    ensures !ok ==> m.Free() == {} && TableSet(m.ram, root) < KernelTables()
  {
    RamMapAll(tramp);
    var data := tramp + 1;
    ok := MapRam(m, root, RAM_FIRST, tramp - RAM_FIRST, READ_EXEC, tramp, tramp, ram0, free0);
    if ok {
      ok := MapRam(m, root, tramp, 1, READ_EXEC, data, tramp, ram0, free0);
    }
    if ok {
      ok := MapRam(m, root, data, RAM_END - data, READ_WRITE, RAM_END, tramp, ram0, free0);
    }
    if ok {
      ok := MapUart(m, root, tramp, ram0, free0);
    }
  }

  lemma BuildingOne(ram: Ram, free: set<nat>, ram': Ram, root: nat)
    requires root in ram && root in free && ram' == ram[root := ZERO_PAGE]
    ensures Building(ram, free, ram', free - {root}, root) && Flat(ram', root) == map[] && TableSet(ram', root) == {}
  {
    EmptyTable(ram', root);
  }

  /** A finished table is a space with an empty user view. */
  lemma BuiltSpace(ram0: Ram, free0: set<nat>, ram: Ram, free: set<nat>, root: nat, first: nat, tramp: nat)
    requires Building(ram0, free0, ram, free, root) && Flat(ram, root) == KernelMap(tramp)
    requires AllAllocatable(free0, first)
    ensures SpaceOk(ram, free, root, first) && UserView(ram, root) == map[]
    ensures SpacePages(ram, root) == Tables(ram, root)
  {
    KernelMapOk(tramp, Tables(ram, root), free, first);
    assert forall v :: v in KernelMap(tramp) ==> !UserVpn(v);
  }

  /** init_userpt: 0 exactly when fewer than 34 pages are free, with every page given back; otherwise a space
      made of 34 formerly free pages, with the kernel's mappings and nothing for the user. */
  method InitUserPt(m: Machine, tramp: nat) returns (root: nat)
    requires m.Valid() && RAM_FIRST < tramp && tramp + 1 < RAM_END
    modifies m, m.bitmap
    ensures m.Valid()
    ensures SameOutside(old(m.ram), m.ram, old(m.Free()))
    ensures root == 0 ==> m.Free() == old(m.Free())
    ensures root != 0 ==> SpaceOk(m.ram, m.Free(), root, m.first) && UserView(m.ram, root) == map[]
    ensures root == 0 <==> |old(m.Free())| < FRESH_PAGES
    ensures root != 0 ==> TableSet(m.ram, root) == KernelTables() && |m.Free()| == |old(m.Free())| - FRESH_PAGES
    ensures root != 0 ==> Flat(m.ram, root) == KernelMap(tramp) && m.Free() + SpacePages(m.ram, root) == old(m.Free())
  {
    ghost var ram0, free0 := m.ram, m.Free();
    FreeAllocatable(m);
    var pa := m.Kalloc();
    if pa == 0 {
      return 0;
    }
    root := pa / 4096;
    m.ZeroPage(pa);
    BuildingOne(ram0, free0, m.ram, root);
    var ok := MapKernelAll(m, root, tramp, ram0, free0);
    if ok {
      BuiltSpace(ram0, free0, m.ram, m.Free(), root, m.first, tramp);
      BuiltCount(ram0, free0, m.ram, m.Free(), root, tramp);
    } else {
      BuildingShort(ram0, free0, m.ram, m.Free(), root);
      FreeWalk(m, root);
      root := 0;
    }
  }

  lemma BuiltCount(ram0: Ram, free0: set<nat>, ram: Ram, free: set<nat>, root: nat, tramp: nat)
    requires Building(ram0, free0, ram, free, root) && Flat(ram, root) == KernelMap(tramp)
    requires TableSet(ram, root) <= KernelTables()
    ensures TableSet(ram, root) == KernelTables() && |free| == |free0| - FRESH_PAGES
  {
    AllKernelTables(ram, root, tramp);
    KernelTableCount();
    BuildingCount(ram0, free0, ram, free, root);
  }
}

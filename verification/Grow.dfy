/** Giving pages to a user address space: uvmalloc of kernel/vm.c and init_userpt of kernel/proc.c. */
module Grow {
  import opened Layout
  import opened PageTable
  import opened Memory
  import opened Vm
  import opened Space
  import opened UserSpace
  import opened PageCount

  /** flags | PTE_V */
  function WithValid(flags: nat): nat {
    if flags % 2 == 1 then flags else flags + 1
  }

  lemma FlatOkInsert(flat: map<nat, nat>, tables: set<nat>, free: set<nat>, tables': set<nat>, free': set<nat>,
                     first: nat, v: nat, e: nat)
    requires FlatOk(flat, tables, free, first) && v !in flat && UserVpn(v)
    requires HasBit(e, PTE_U) && first <= Ppn(e) < RAM_END && Ppn(e) !in Owned(flat)
    requires Ppn(e) !in free + tables && free' + tables' == free + tables
    ensures FlatOk(flat[v := e], tables', free', first)
    ensures Owned(flat[v := e]) == Owned(flat) + {Ppn(e)} && Owned(flat) !! free + tables
  {
    var flat' := flat[v := e];
    forall w | w in flat && UserVpn(w)
      ensures Ppn(flat[w]) in Owned(flat) && Ppn(flat[w]) !in free + tables && w in flat' && flat'[w] == flat[w]
    {
    }
    assert v in flat' && flat'[v] == e;
  }

  lemma ViewInsert(flat: map<nat, nat>, ram: Ram, ram': Ram, s: set<nat>, v: nat, e: nat)
    requires AllRam(ram) && AllRam(ram') && SameOutside(ram, ram', s)
    requires Owned(flat) !! s && v !in flat && UserVpn(v) && Ppn(e) in ram && Ppn(e) !in s
    ensures ViewOf(flat[v := e], ram') == ViewOf(flat, ram)[v := UserPage(PteFlags(e), ram[Ppn(e)])]
  {
    ViewFrame(flat, ram, ram', s);
    assert ram'[Ppn(e)] == ram[Ppn(e)];
  }

  lemma EntryFor(p: nat, flags: nat)
    requires RAM_FIRST <= p < RAM_END && flags < 1024 && HasBit(flags, PTE_U)
    ensures var e := MakePte(p * 4096, flags);
            HasBit(e, PTE_U) && Ppn(e) == p && PteFlags(e) == WithValid(flags)
  {
    PteRoundTrip(p * 4096, flags);
    PteBits(p * 4096, flags);
  }

  /** Mapping a page held by the kernel at user page v. */
  lemma PageAdded(ram: Ram, free: set<nat>, ram': Ram, free': set<nat>, root: nat, first: nat, v: nat, p: nat,
                  flags: nat)
    requires AllRam(ram) && AllRam(ram') && RAM_FIRST <= first <= p < RAM_END && flags < 1024 && HasBit(flags, PTE_U)
    requires SpaceOk(ram, free, root, first) && p !in free && p !in SpacePages(ram, root)
    requires UserVpn(v) && v !in Flat(ram, root) && AllAllocatable(free, first)
    requires TableOk(ram', free', root) && Grown(ram, free, ram', free', root)
    requires Flat(ram', root) == Flat(ram, root)[v := MakePte(p * 4096, flags)]
    ensures SpaceOk(ram', free', root, first)
    ensures free' + SpacePages(ram', root) == free + SpacePages(ram, root) + {p}
    ensures UserView(ram', root) == UserView(ram, root)[v := UserPage(WithValid(flags), ram[p])]
  {
    var flat, e := Flat(ram, root), MakePte(p * 4096, flags);
    EntryFor(p, flags);
    assert InRam(p);
    FlatOkInsert(flat, Tables(ram, root), free, Tables(ram', root), free', first, v, e);
    ViewInsert(flat, ram, ram', free + Tables(ram, root), v, e);
  }

  /** The kernel takes a free page and fills it: no space notices. */
  lemma PageTaken(ram: Ram, free: set<nat>, root: nat, first: nat, p: nat, bytes: Page)
    requires AllRam(ram) && RAM_FIRST <= first && SpaceOk(ram, free, root, first) && InRam(p)
    requires p !in SpacePages(ram, root)
    ensures var ram', free' := ram[p := bytes], free - {p};
            && AllRam(ram') && SpaceOk(ram', free', root, first)
            && SpacePages(ram', root) == SpacePages(ram, root) && UserView(ram', root) == UserView(ram, root)
            && Flat(ram', root) == Flat(ram, root) && SameOutside(ram, ram', {p})
            && TableSet(ram', root) == TableSet(ram, root)
    ensures free !! SpacePages(ram, root)
  {
    OwnedNoTable(Flat(ram, root), Tables(ram, root), free, first);
    SpaceFrame(ram, free, ram[p := bytes], free - {p}, root, first, {p});
  }

  /** From (ram, free) to (ram', free') the space gained user page v, with the given contents and flags,
      and nothing else. */
  ghost predicate Gained(ram: Ram, free: set<nat>, ram': Ram, free': set<nat>, root: nat, first: nat,
                         v: nat, bytes: Page, flags: nat)
    requires root in ram
  {
    && Kept(ram, free, ram', free', root, first)
    && v in Flat(ram', root) && Flat(ram', root) - {v} == Flat(ram, root)
    && TableSet(ram', root) == TableSet(ram, root) + {v / 1024}
    && UserView(ram', root) == UserView(ram, root)[v := UserPage(WithValid(flags), bytes)]
  }

  /** The space is as it was. */
  ghost predicate Same(ram: Ram, free: set<nat>, ram': Ram, free': set<nat>, root: nat, first: nat)
    requires root in ram
  {
    && Kept(ram, free, ram', free', root, first)
    && Flat(ram', root) == Flat(ram, root) && UserView(ram', root) == UserView(ram, root)
  }

  /** A page for v, and one for its second-level table if that is missing, is more than there is. */
  ghost predicate TooFew(ram: Ram, free: set<nat>, root: nat, v: nat)
    requires root in ram
  {
    |free| < 1 + (if v / 1024 in TableSet(ram, root) then 0 else 1)
  }

  /** Memory sufficed. */
  lemma GainedCount(ram: Ram, free: set<nat>, ram': Ram, free': set<nat>, root: nat, first: nat, v: nat, bytes: Page,
                    flags: nat)
    requires SpaceOk(ram, free, root, first) && AllRam(ram) && AllRam(ram') && RAM_FIRST <= first
    requires v !in Flat(ram, root) && Gained(ram, free, ram', free', root, first, v, bytes, flags)
    ensures !TooFew(ram, free, root, v)
  {
    var view, t := UserView(ram, root), TableSet(ram, root);
    assert v !in view;
    KeptCount(ram, free, ram', free', root, first);
    InsertCount(view, v, UserPage(WithValid(flags), bytes));
    MaybeOneMore(t, v / 1024);
  }

  lemma InsertCount(view: View, v: nat, page: UserPage)
    requires v !in view
    ensures |view[v := page]| == |view| + 1
  {
    assert view[v := page].Keys == view.Keys + {v};
    OneMore(view.Keys, v);
  }

  lemma MaybeOneMore(t: set<nat>, i: nat)
    ensures |t + {i}| == |t| + (if i in t then 0 else 1)
  {
    if i in t {
      assert t + {i} == t;
    } else {
      OneMore(t, i);
    }
  }

  lemma SameRefl(ram: Ram, free: set<nat>, root: nat, first: nat)
    requires SpaceOk(ram, free, root, first)
    ensures Same(ram, free, ram, free, root, first)
  {
  }

  lemma TakenThenAdded(ram0: Ram, free0: set<nat>, ram1: Ram, ram2: Ram, free2: set<nat>, root: nat, first: nat,
                       v: nat, p: nat, bytes: Page, flags: nat)
    requires AllRam(ram0) && AllRam(ram2) && RAM_FIRST <= first <= p < RAM_END && flags < 1024 && HasBit(flags, PTE_U)
    requires SpaceOk(ram0, free0, root, first) && AllAllocatable(free0, first) && p in free0
    requires UserVpn(v) && v !in Flat(ram0, root)
    requires ram1 == ram0[p := bytes]
    requires TableOk(ram2, free2, root) && Grown(ram1, free0 - {p}, ram2, free2, root)
    requires Flat(ram2, root) == Flat(ram1, root)[v := MakePte(p * 4096, flags)]
    requires TableSet(ram2, root) == TableSet(ram1, root) + {v / 1024}
    ensures Gained(ram0, free0, ram2, free2, root, first, v, bytes, flags)
  {
    OwnedNoTable(Flat(ram0, root), Tables(ram0, root), free0, first);
    PageTaken(ram0, free0, root, first, p, bytes);
    PageAdded(ram1, free0 - {p}, ram2, free2, root, first, v, p, flags);
    OutsideTrans(ram0, ram1, ram2, {p}, free0 - {p} + Tables(ram1, root), free0 + SpacePages(ram0, root));
    PutBack(free0, p, SpacePages(ram0, root));
    RemoveInserted(Flat(ram0, root), v, MakePte(p * 4096, flags));
  }

  lemma OutsideTrans(ram0: Ram, ram1: Ram, ram2: Ram, s1: set<nat>, s2: set<nat>, s: set<nat>)
    requires SameOutside(ram0, ram1, s1) && SameOutside(ram1, ram2, s2) && s1 <= s && s2 <= s
    ensures SameOutside(ram0, ram2, s)
  {
  }

  lemma PutBack(s: set<nat>, p: nat, r: set<nat>)
    requires p in s
    ensures s - {p} + {p} == s && s - {p} + r + {p} == s + r
  {
  }

  lemma RemoveInserted(flat: map<nat, nat>, v: nat, e: nat)
    requires v !in flat
    ensures flat[v := e] - {v} == flat
  {
  }

  lemma TakenThenReturned(ram0: Ram, free0: set<nat>, ram2: Ram, root: nat, first: nat, p: nat)
    requires AllRam(ram0) && RAM_FIRST <= first && SpaceOk(ram0, free0, root, first) && p in free0 && InRam(p)
    requires ram2 == ram0[p := ZERO_PAGE]
    ensures Same(ram0, free0, ram2, free0, root, first) && TableSet(ram2, root) == TableSet(ram0, root)
  {
    OwnedNoTable(Flat(ram0, root), Tables(ram0, root), free0, first);
    SpaceFrame(ram0, free0, ram2, free0, root, first, {p});
  }

  lemma TakenTable(ram: Ram, free: set<nat>, root: nat, first: nat, p: nat, bytes: Page)
    requires AllRam(ram) && RAM_FIRST <= first && SpaceOk(ram, free, root, first) && p in free && InRam(p)
    ensures TableOk(ram[p := bytes], free - {p}, root) && Flat(ram[p := bytes], root) == Flat(ram, root)
    ensures TableSet(ram[p := bytes], root) == TableSet(ram, root)
  {
    OwnedNoTable(Flat(ram, root), Tables(ram, root), free, first);
    PageTaken(ram, free, root, first, p, bytes);
  }

  lemma FreeAllocatable(m: Machine)
    requires m.Valid()
    ensures AllAllocatable(m.Free(), m.first)
  {
  }

  /** kalloc, fill the page, mappage, and kfree if that fails: the step uvmalloc, uvmcopy and kexec share.
      Fails exactly when a page is missing, and then the space is as before. */
  method MapFresh(m: Machine, root: nat, v: nat, bytes: Page, flags: nat) returns (ok: bool)
    requires m.Valid() && SpaceOk(m.ram, m.Free(), root, m.first)
    requires UserVpn(v) && v !in Flat(m.ram, root) && flags < 1024 && HasBit(flags, PTE_U)
    modifies m, m.bitmap
    ensures m.Valid()
    ensures ok ==> Gained(old(m.ram), old(m.Free()), m.ram, m.Free(), root, m.first, v, bytes, flags)
    ensures !ok ==> Same(old(m.ram), old(m.Free()), m.ram, m.Free(), root, m.first)
    ensures ok <==> !TooFew(old(m.ram), old(m.Free()), root, v)
    ensures !ok ==> TableSet(m.ram, root) == old(TableSet(m.ram, root))
  {
    ghost var ram0, free0 := m.ram, m.Free();
    SameRefl(ram0, free0, root, m.first);
    FreeAllocatable(m);
    var pa := m.Kalloc();
    if pa == 0 {
      return false;
    }
    WholePage(m.ram[pa / 4096], bytes);
    m.Store(pa, bytes);
    ghost var p := pa / 4096;
    ok := MapHeld(m, root, v, pa, flags, p, ram0, m.ram, free0, bytes);
    if ok {
      GainedCount(ram0, free0, m.ram, m.Free(), root, m.first, v, bytes, flags);
    }
  }

  lemma WholePage(p: Page, bytes: Page)
    ensures Blit(p, 0, bytes) == bytes
  {
  }

  /** mappage of page p, at address pa, which kalloc gave out and was then filled; kfree if that fails. */
  method MapHeld(m: Machine, root: nat, v: nat, pa: nat, flags: nat, ghost p: nat, ghost ram0: Ram, ghost ram1: Ram,
                 ghost free0: set<nat>, ghost bytes: Page)
    returns (ok: bool)
    requires m.Valid() && AllRam(ram0) && SpaceOk(ram0, free0, root, m.first) && AllAllocatable(free0, m.first)
    requires pa % 4096 == 0 && p == pa / 4096 && p in free0 && InRam(p) && pa < MEM_END
    requires m.ram == ram1 && ram1 == ram0[p := bytes] && m.Free() == free0 - {p}
    requires UserVpn(v) && v !in Flat(ram0, root) && flags < 1024 && HasBit(flags, PTE_U)
    modifies m, m.bitmap
    ensures m.Valid()
    ensures ok ==> Gained(ram0, free0, m.ram, m.Free(), root, m.first, v, bytes, flags)
    ensures !ok ==> Same(ram0, free0, m.ram, m.Free(), root, m.first) && TooFew(ram0, free0, root, v)
    ensures !ok ==> TableSet(m.ram, root) == TableSet(ram0, root)
  {
    TakenTable(ram0, free0, root, m.first, p, bytes);
    var va := v * 4096;
    UserAddress(v, va, p, pa);
    ok := MapPage(m, root, va, pa, flags);
    if ok {
      TakenThenAdded(ram0, free0, ram1, m.ram, m.Free(), root, m.first, v, p, bytes, flags);
    } else {
      LastPage(ram0, free0, root, v, p);
      GiveBack(m, root, pa, ram0, free0, bytes);
    }
  }

  lemma UserAddress(v: nat, va: nat, p: nat, pa: nat)
    requires UserVpn(v) && va == v * 4096 && p == pa / 4096 && pa % 4096 == 0 && pa < MEM_END
    ensures va < 0x1_0000_0000 && va % 4096 == 0 && va / 4096 == v && va / 4096 / 1024 == v / 1024
    ensures pa < 0x1_0000_0000 && pa == p * 4096
  {
  }

  lemma LastPage(ram: Ram, free: set<nat>, root: nat, v: nat, p: nat)
    requires root in ram && p in free && free - {p} == {} && v / 1024 !in TableSet(ram, root)
    ensures TooFew(ram, free, root, v)
  {
    OnlyOne(free, p);
  }

  lemma OnlyOne(s: set<nat>, p: nat)
    requires p in s && s - {p} == {}
    ensures |s| == 1
  {
    assert s == {p};
  }

  /** kfree of a page that could not be mapped. */
  method GiveBack(m: Machine, ghost root: nat, pa: nat, ghost ram0: Ram, ghost free0: set<nat>, ghost bytes: Page)
    requires m.Valid() && AllRam(ram0) && SpaceOk(ram0, free0, root, m.first) && AllAllocatable(free0, m.first)
    requires pa % 4096 == 0 && pa / 4096 in free0
    requires m.ram == ram0[pa / 4096 := bytes] && m.Free() == free0 - {pa / 4096}
    modifies m, m.bitmap
    ensures m.Valid() && Same(ram0, free0, m.ram, m.Free(), root, m.first)
    ensures TableSet(m.ram, root) == TableSet(ram0, root)
  {
    ghost var p := pa / 4096;
    m.Kfree(pa);
    PutBack(free0, p, {});
    TakenThenReturned(ram0, free0, m.ram, root, m.first, p);
  }

  // ---------------------------------------------------------------- uvmalloc

  ghost predicate NotMapped(flat: map<nat, nat>, lo: nat, hi: nat) {
    forall v :: v in flat ==> !(lo <= v < hi)
  }

  /** Zeroed pages lo <= v < hi. */
  ghost function ZeroRun(lo: nat, hi: nat, flags: nat): View {
    map v: nat | v < hi && Between(v, lo, hi) :: UserPage(WithValid(flags), ZERO_PAGE)
  }

  /** The space gained exactly the zeroed pages lo <= v < hi. */
  ghost predicate Allocated(ram: Ram, free: set<nat>, ram': Ram, free': set<nat>, root: nat, first: nat,
                            lo: nat, hi: nat, flags: nat)
    requires root in ram
  {
    && Kept(ram, free, ram', free', root, first)
    && Without(Flat(ram', root), lo, hi) == Flat(ram, root)
    && TableSet(ram', root) == TableSet(ram, root) + Regions(lo, hi)
    && UserView(ram', root) == UserView(ram, root) + ZeroRun(lo, hi, flags)
  }

  /** The first-level indices of the pages lo <= v < hi. */
  ghost function Regions(lo: nat, hi: nat): set<nat> {
    set v | v in PagesIn(lo, hi) :: v / 1024
  }

  lemma RegionsNext(lo: nat, mid: nat)
    requires lo <= mid
    ensures Regions(lo, mid + 1) == Regions(lo, mid) + {mid / 1024} && Regions(lo, lo) == {}
  {
    PagesNext(lo, mid);
    assert mid in PagesIn(lo, mid + 1);
  }

  lemma RegionsGrow(lo: nat, mid: nat, hi: nat)
    requires mid <= hi
    ensures Regions(lo, mid) <= Regions(lo, hi)
  {
    assert PagesIn(lo, mid) <= PagesIn(lo, hi);
  }

  /** The pages from lo to hi, with the tables they lack, are more than there is. */
  ghost predicate Short(ram: Ram, free: set<nat>, root: nat, lo: nat, hi: nat)
    requires root in ram
  {
    |free| + |TableSet(ram, root)| < (hi - lo) + |TableSet(ram, root) + Regions(lo, hi)|
  }

  lemma {:induction false} PagesInCount(lo: nat, hi: nat)
    requires lo <= hi
    ensures |PagesIn(lo, hi)| == hi - lo
    decreases hi
  {
    if lo == hi {
      assert PagesIn(lo, hi) == {};
    } else {
      var mid := hi - 1;
      PagesInCount(lo, mid);
      PagesNext(lo, mid);
      OneMore(PagesIn(lo, mid), mid);
    }
  }

  lemma ZeroRunCount(view: View, lo: nat, hi: nat, flags: nat)
    requires lo <= hi && forall v :: v in view ==> !(lo <= v < hi)
    ensures |view + ZeroRun(lo, hi, flags)| == |view| + (hi - lo)
  {
    var both := view + ZeroRun(lo, hi, flags);
    assert both.Keys == view.Keys + PagesIn(lo, hi);
    DisjointCount(view.Keys, PagesIn(lo, hi));
    PagesInCount(lo, hi);
  }

  lemma SubsetCount(a: set<nat>, b: set<nat>)
    requires a <= b
    ensures |a| <= |b|
  {
    DisjointCount(a, b - a);
    assert a + (b - a) == b;
  }

  /** If one page of the range cannot be had, the range was too much to ask for. */
  lemma ShortAt(ram0: Ram, free0: set<nat>, ram1: Ram, free1: set<nat>, root: nat, first: nat, lo: nat, v: nat,
                hi: nat, flags: nat)
    requires SpaceOk(ram0, free0, root, first) && AllRam(ram0) && AllRam(ram1) && RAM_FIRST <= first && lo <= v < hi
    requires NotMapped(Flat(ram0, root), lo, hi) && Allocated(ram0, free0, ram1, free1, root, first, lo, v, flags)
    requires TooFew(ram1, free1, root, v)
    ensures Short(ram0, free0, root, lo, hi)
  {
    var t0, t1 := TableSet(ram0, root), TableSet(ram1, root);
    KeptCount(ram0, free0, ram1, free1, root, first);
    ZeroRunCount(UserView(ram0, root), lo, v, flags);
    ShortSets(t0, t1, lo, v, hi);
  }

  lemma ShortSets(t0: set<nat>, t1: set<nat>, lo: nat, v: nat, hi: nat)
    requires lo <= v < hi && t1 == t0 + Regions(lo, v)
    ensures |t1| + (if v / 1024 in t1 then 0 else 1) <= |t0 + Regions(lo, hi)|
  {
    RegionsNext(lo, v);
    RegionsGrow(lo, v + 1, hi);
    assert t1 + {v / 1024} == t0 + Regions(lo, v + 1);
    if v / 1024 !in t1 {
      OneMore(t1, v / 1024);
    } else {
      assert t1 + {v / 1024} == t1;
    }
    SubsetCount(t1 + {v / 1024}, t0 + Regions(lo, hi));
  }

  /** Memory sufficed: the pages are gone from the free ones. */
  lemma AllocatedCount(ram0: Ram, free0: set<nat>, ram1: Ram, free1: set<nat>, root: nat, first: nat, lo: nat,
                       hi: nat, flags: nat)
    requires SpaceOk(ram0, free0, root, first) && AllRam(ram0) && AllRam(ram1) && RAM_FIRST <= first && lo <= hi
    requires NotMapped(Flat(ram0, root), lo, hi) && Allocated(ram0, free0, ram1, free1, root, first, lo, hi, flags)
    ensures |free0| + |TableSet(ram0, root)| == |free1| + (hi - lo) + |TableSet(ram0, root) + Regions(lo, hi)|
  {
    KeptCount(ram0, free0, ram1, free1, root, first);
    ZeroRunCount(UserView(ram0, root), lo, hi, flags);
  }

  lemma NotShort(ram0: Ram, free0: set<nat>, ram1: Ram, free1: set<nat>, root: nat, first: nat, lo: nat, hi: nat,
                 flags: nat)
    requires SpaceOk(ram0, free0, root, first) && AllRam(ram0) && AllRam(ram1) && RAM_FIRST <= first && lo <= hi
    requires NotMapped(Flat(ram0, root), lo, hi) && Allocated(ram0, free0, ram1, free1, root, first, lo, hi, flags)
    ensures !Short(ram0, free0, root, lo, hi)
  {
    AllocatedCount(ram0, free0, ram1, free1, root, first, lo, hi, flags);
  }

  lemma AllocatedNone(ram: Ram, free: set<nat>, root: nat, first: nat, lo: nat, flags: nat)
    requires SpaceOk(ram, free, root, first)
    ensures Allocated(ram, free, ram, free, root, first, lo, lo, flags)
  {
    NoChange(Flat(ram, root), UserView(ram, root), lo, flags);
    RegionsNext(lo, lo);
  }

  lemma NoChange(flat: map<nat, nat>, view: View, lo: nat, flags: nat)
    ensures Without(flat, lo, lo) == flat && view + ZeroRun(lo, lo, flags) == view
  {
  }

  lemma WithoutNext(flat0: map<nat, nat>, flat1: map<nat, nat>, flat2: map<nat, nat>, lo: nat, mid: nat)
    requires lo <= mid && mid !in flat0 && Without(flat1, lo, mid) == flat0 && flat2 - {mid} == flat1
    ensures Without(flat2, lo, mid + 1) == flat0
  {
    assert forall v :: v in flat1 ==> v in flat2 && flat2[v] == flat1[v];
    forall v | v in flat2 && v != mid
      ensures v in flat1 && flat1[v] == flat2[v]
    {
      assert v in flat2 - {mid};
    }
    assert forall v :: v in flat0 ==> v in flat1 && flat1[v] == flat0[v] && !(lo <= v < mid);
  }

  lemma ZeroRunNext(view: View, lo: nat, mid: nat, flags: nat)
    requires lo <= mid
    ensures view + ZeroRun(lo, mid + 1, flags) ==
            (view + ZeroRun(lo, mid, flags))[mid := UserPage(WithValid(flags), ZERO_PAGE)]
  {
    assert ZeroRun(lo, mid + 1, flags) == ZeroRun(lo, mid, flags)[mid := UserPage(WithValid(flags), ZERO_PAGE)];
  }

  lemma AllocatedNext(ram0: Ram, free0: set<nat>, ram1: Ram, free1: set<nat>, ram2: Ram, free2: set<nat>,
                      root: nat, first: nat, lo: nat, mid: nat, flags: nat)
    requires root in ram0 && lo <= mid && mid !in Flat(ram0, root)
    requires Allocated(ram0, free0, ram1, free1, root, first, lo, mid, flags)
    requires Gained(ram1, free1, ram2, free2, root, first, mid, ZERO_PAGE, flags)
    ensures Allocated(ram0, free0, ram2, free2, root, first, lo, mid + 1, flags)
  {
    KeptTrans(ram0, free0, ram1, free1, ram2, free2, root, first);
    WithoutNext(Flat(ram0, root), Flat(ram1, root), Flat(ram2, root), lo, mid);
    ZeroRunNext(UserView(ram0, root), lo, mid, flags);
    RegionsNext(lo, mid);
  }

  lemma NotYetMapped(flat0: map<nat, nat>, flat1: map<nat, nat>, lo: nat, mid: nat, hi: nat)
    requires lo <= mid < hi && NotMapped(flat0, lo, hi) && Without(flat1, lo, mid) == flat0
    ensures mid !in flat0 && mid !in flat1
  {
    assert mid in flat1 ==> mid in Without(flat1, lo, mid);
  }

  /** One round of uvmalloc. */
  method AllocNext(m: Machine, root: nat, v: nat, flags: nat, ghost v': nat, ghost ram0: Ram, ghost free0: set<nat>,
                   ghost lo: nat, ghost hi: nat)
    returns (ok: bool)
    requires m.Valid() && AllRam(ram0) && SpaceOk(ram0, free0, root, m.first)
    requires v' == v + 1 && 1 <= lo <= v < hi <= UART_VPN && NotMapped(Flat(ram0, root), lo, hi)
    requires flags < 1024 && HasBit(flags, PTE_U)
    requires Allocated(ram0, free0, m.ram, m.Free(), root, m.first, lo, v, flags)
    modifies m, m.bitmap
    ensures m.Valid()
    ensures ok ==> Allocated(ram0, free0, m.ram, m.Free(), root, m.first, lo, v', flags)
    ensures !ok ==> Allocated(ram0, free0, m.ram, m.Free(), root, m.first, lo, v, flags)
    ensures !ok ==> Short(ram0, free0, root, lo, hi)
  {
    ghost var ram1, free1 := m.ram, m.Free();
    NotYetMapped(Flat(ram0, root), Flat(ram1, root), lo, v, hi);
    ok := MapFresh(m, root, v, ZERO_PAGE, flags);
    if ok {
      AllocatedNext(ram0, free0, ram1, free1, m.ram, m.Free(), root, m.first, lo, v, flags);
    } else {
      ShortAt(ram0, free0, ram1, free1, root, m.first, lo, v, hi, flags);
      KeptTrans(ram0, free0, ram1, free1, m.ram, m.Free(), root, m.first);
    }
  }

  lemma ViewRestored(flat: map<nat, nat>, ram: Ram, lo: nat, v: nat, hi: nat, flags: nat)
    requires NotMapped(flat, lo, hi) && v <= hi
    ensures ViewWithout(ViewOf(flat, ram) + ZeroRun(lo, v, flags), lo, v) == ViewOf(flat, ram)
  {
  }

  lemma ShrunkKept(ram: Ram, free: set<nat>, ram': Ram, free': set<nat>, root: nat, first: nat)
    requires root in ram && Shrunk(ram, free, ram', free', root, first)
    ensures Kept(ram, free, ram', free', root, first)
  {
  }

  lemma PageRange(lo: nat, v: nat, va: nat, size: nat)
    requires 1 <= lo <= v <= UART_VPN && va == lo * 4096 && size == v * 4096 - lo * 4096
    ensures va < 0x1_0000_0000 && va % 4096 == 0 && va / 4096 == lo
    ensures size < 0x1_0000_0000 && size % 4096 == 0 && EndPage(va, size) == v
    ensures forall w :: lo <= w < v ==> UserVpn(w)
  {
  }

  lemma Undone(ram0: Ram, free0: set<nat>, ram1: Ram, free1: set<nat>, ram2: Ram, free2: set<nat>, root: nat,
               first: nat, lo: nat, v: nat, hi: nat, flags: nat)
    requires root in ram0 && NotMapped(Flat(ram0, root), lo, hi) && v <= hi
    requires Allocated(ram0, free0, ram1, free1, root, first, lo, v, flags)
    requires Shrunk(ram1, free1, ram2, free2, root, first) && Flat(ram2, root) == Without(Flat(ram1, root), lo, v)
    requires UserView(ram2, root) == ViewWithout(UserView(ram1, root), lo, v)
    ensures Same(ram0, free0, ram2, free2, root, first)
  {
    ShrunkKept(ram1, free1, ram2, free2, root, first);
    KeptTrans(ram0, free0, ram1, free1, ram2, free2, root, first);
    ViewRestored(Flat(ram0, root), ram0, lo, v, hi, flags);
  }

  /** Undoes what uvmalloc mapped. */
  method Undo(m: Machine, root: nat, lo: nat, v: nat, ghost hi: nat, ghost flags: nat, ghost ram0: Ram,
              ghost free0: set<nat>)
    requires m.Valid() && root in ram0 && 1 <= lo <= v <= hi <= UART_VPN
    requires NotMapped(Flat(ram0, root), lo, hi)
    requires Allocated(ram0, free0, m.ram, m.Free(), root, m.first, lo, v, flags)
    modifies m, m.bitmap
    ensures m.Valid() && Same(ram0, free0, m.ram, m.Free(), root, m.first)
  {
    ghost var ram1, free1 := m.ram, m.Free();
    var va, size := lo * 4096, v * 4096 - lo * 4096;
    PageRange(lo, v, va, size);
    UnmapUser(m, root, va, size);
    Undone(ram0, free0, ram1, free1, m.ram, m.Free(), root, m.first, lo, v, hi, flags);
  }

  /** The loop of uvmalloc, by page number. */
  method AllocRun(m: Machine, root: nat, lo: nat, hi: nat, flags: nat, ghost ram0: Ram, ghost free0: set<nat>)
    returns (ok: bool)
    requires m.Valid() && m.ram == ram0 && m.Free() == free0 && SpaceOk(ram0, free0, root, m.first)
    requires 1 <= lo <= hi <= UART_VPN && NotMapped(Flat(ram0, root), lo, hi) && flags < 1024 && HasBit(flags, PTE_U)
    modifies m, m.bitmap
    ensures m.Valid()
    ensures ok ==> Allocated(ram0, free0, m.ram, m.Free(), root, m.first, lo, hi, flags)
    ensures !ok ==> Same(ram0, free0, m.ram, m.Free(), root, m.first)
    ensures !ok <==> Short(ram0, free0, root, lo, hi)
  {
    AllocatedNone(ram0, free0, root, m.first, lo, flags);
    var v := lo;
    while v < hi
      invariant lo <= v <= hi && m.Valid()
      invariant Allocated(ram0, free0, m.ram, m.Free(), root, m.first, lo, v, flags)
    {
      var v' := v + 1;
      ok := AllocNext(m, root, v, flags, v', ram0, free0, lo, hi);
      if !ok {
        Undo(m, root, lo, v, hi, flags, ram0, free0);
        return;
      }
      v := v';
    }
    NotShort(ram0, free0, m.ram, m.Free(), root, m.first, lo, hi, flags);
    ok := true;
  }

  /** uvmalloc: zeroed pages with flags PTE_R | PTE_U | xperm up to newsz; 0, and the old space, if
      memory runs out, which is when the free pages are fewer than the pages and the tables they lack.
      That nothing in the range is mapped is its caller's duty: mappage panics. */
  method UvmAlloc(m: Machine, root: nat, oldsz: nat, newsz: nat, xperm: nat) returns (r: nat)
    requires m.Valid() && SpaceOk(m.ram, m.Free(), root, m.first)
    requires USER_BASE <= oldsz && newsz <= UART_0 && xperm in {0, PTE_W, PTE_X, PTE_W + PTE_X}
    requires oldsz <= newsz ==> NotMapped(Flat(m.ram, root), PageUp(oldsz) / 4096, PageUp(newsz) / 4096)
    modifies m, m.bitmap
    ensures m.Valid()
    ensures r == 0 || r == if oldsz > newsz then oldsz else newsz
    ensures r == newsz ==> Allocated(old(m.ram), old(m.Free()), m.ram, m.Free(), root, m.first,
                                     PageUp(oldsz) / 4096, PageUp(newsz) / 4096, PTE_R + PTE_U + xperm)
    ensures oldsz <= newsz ==>
              (r == 0 <==> Short(old(m.ram), old(m.Free()), root, PageUp(oldsz) / 4096, PageUp(newsz) / 4096))
    ensures r != newsz ==> Same(old(m.ram), old(m.Free()), m.ram, m.Free(), root, m.first)
  {
    if oldsz > newsz {
      SameRefl(m.ram, m.Free(), root, m.first);
      return oldsz;
    }
    var ok := AllocRun(m, root, PageUp(oldsz) / 4096, PageUp(newsz) / 4096, PTE_R + PTE_U + xperm, m.ram, m.Free());
    r := if ok then newsz else 0;
  }
}

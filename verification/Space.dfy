/** kernel/vm.c: user address spaces, who owns their pages, and taking them apart. */
module Space {
  import opened Layout
  import opened PageTable
  import opened Memory
  import opened Vm

  /** The virtual pages a user program can own: the image below the UART, and the stack page. */
  predicate UserVpn(v: nat) {
    1 <= v < UART_VPN || v == STACK_VPN
  }

  /** The physical pages behind the mapped pages v with lo <= v < hi. */
  ghost function PagesOf(flat: map<nat, nat>, lo: nat, hi: nat): set<nat> {
    set v | v in flat && lo <= v < hi :: Ppn(flat[v])
  }

  ghost function Without(flat: map<nat, nat>, lo: nat, hi: nat): map<nat, nat> {
    map v | v in flat && !(lo <= v < hi) :: flat[v]
  }

  /** The user pages of a flat map. */
  ghost function Owned(flat: map<nat, nat>): set<nat> {
    set v | v in flat && UserVpn(v) :: Ppn(flat[v])
  }

  /** The leaf pages from lo to hi may be freed: each is an allocated page, used once and not for a table. */
  ghost predicate Freeable(ram: Ram, free: set<nat>, root: nat, first: nat, lo: nat, hi: nat)
    requires root in ram
  {
    var flat := Flat(ram, root);
    && (forall v :: v in flat && lo <= v < hi ==>
          first <= Ppn(flat[v]) < RAM_END && Ppn(flat[v]) !in free && Ppn(flat[v]) !in Tables(ram, root))
    && (forall v, w :: v in flat && w in flat && lo <= v < hi && lo <= w < hi && Ppn(flat[v]) == Ppn(flat[w]) ==>
          v == w)
  }

  /** find_pte without alloc: the second-level table of page v, or 0. */
  function TableFor(ram: Ram, root: nat, v: nat): nat
    requires root in ram && v < VPNS
  {
    var e := Word(ram[root], v / 1024);
    if IsValid(e) then PteToPa(e) / 4096 else 0
  }

  lemma TableForIs(ram: Ram, root: nat, v: nat)
    requires TreeOk(ram, root) && v < VPNS && forall p :: p in ram <==> InRam(p)
    ensures var t := TableFor(ram, root, v);
            && (t == 0 <==> !IsValid(Entry1(ram, root, v / 1024)))
            && (t == 0 ==> v !in Flat(ram, root))
            && (t != 0 ==> t == Ppn(Entry1(ram, root, v / 1024)) && t in Tables(ram, root) && t in ram
                           && Word(ram[t], v % 1024) == Leaf(ram, root, v))
  {
    var e := Entry1(ram, root, v / 1024);
    assert IsValid(e) ==> Ppn(e) in ram && PteToPa(e) / 4096 == Ppn(e);
  }

  /** From (ram, free) to (ram', free'), exactly the pages lo <= v < hi of root were unmapped, and their
      physical pages freed if `drop`; nothing but tables of root and freed pages was written. */
  ghost predicate Unmapped(ram: Ram, free: set<nat>, ram': Ram, free': set<nat>, root: nat, lo: nat, hi: nat,
                           drop: bool)
    requires root in ram
  {
    var freed := if drop then PagesOf(Flat(ram, root), lo, hi) else {};
    && TableOk(ram', free', root) && Tables(ram', root) == Tables(ram, root)
    && Flat(ram', root) == Without(Flat(ram, root), lo, hi)
    && free' == free + freed
    && SameOutside(ram, ram', Tables(ram, root) + freed)
  }

  lemma UnmapNone(ram: Ram, free: set<nat>, root: nat, lo: nat, hi: nat, drop: bool)
    requires TableOk(ram, free, root) && forall v :: lo <= v < hi ==> v !in Flat(ram, root)
    ensures Unmapped(ram, free, ram, free, root, lo, hi, drop)
  {
    assert Without(Flat(ram, root), lo, hi) == Flat(ram, root);
    assert PagesOf(Flat(ram, root), lo, hi) == {};
  }

  lemma TwoWrites(ram: Ram, p: nat, t: nat, x: Page, tables: set<nat>, drop: bool)
    requires t in tables
    ensures SameOutside(ram, (if drop then ram[p := ZERO_PAGE] else ram)[t := x], tables + (if drop then {p} else {}))
  {
  }

  lemma OnePage(flat: map<nat, nat>, v: nat)
    requires v in flat
    ensures PagesOf(flat, v, v + 1) == {Ppn(flat[v])}
    ensures Without(flat, v, v + 1) == flat - {v}
  {
  }

  /** The state after clearing the leaf entry of v, once its page is zeroed and freed if `drop`. */
  lemma UnmapLeaf(ram: Ram, free: set<nat>, ram': Ram, root: nat, v: nat, t: nat, x: Page, drop: bool)
    requires TableOk(ram, free, root) && v in Flat(ram, root) && t in Tables(ram, root)
    requires drop ==> Ppn(Flat(ram, root)[v]) !in Tables(ram, root)
    requires ram' == (if drop then ram[Ppn(Flat(ram, root)[v]) := ZERO_PAGE] else ram)[t := x]
    requires TreeOk(ram', root) && Tables(ram', root) == Tables(ram, root) && Flat(ram', root) == Flat(ram, root) - {v}
    ensures Unmapped(ram, free, ram', free + (if drop then {Ppn(Flat(ram, root)[v])} else {}), root, v, v + 1, drop)
  {
    TwoWrites(ram, Ppn(Flat(ram, root)[v]), t, x, Tables(ram, root), drop);
    OnePage(Flat(ram, root), v);
  }

  lemma ClearLeaf(ram: Ram, root: nat, v: nat, t: nat, drop: bool, ram1: Ram)
    requires TreeOk(ram, root) && v in Flat(ram, root)
    requires drop ==> Ppn(Flat(ram, root)[v]) !in Tables(ram, root)
    requires IsValid(Entry1(ram, root, v / 1024)) && t == Ppn(Entry1(ram, root, v / 1024))
    requires ram1 == if drop then ram[Ppn(Flat(ram, root)[v]) := ZERO_PAGE] else ram
    ensures t in ram1 && t in Tables(ram, root)
    ensures var ram' := ram1[t := SetWord(ram1[t], v % 1024, 0)];
            TreeOk(ram', root) && Tables(ram', root) == Tables(ram, root) && Flat(ram', root) == Flat(ram, root) - {v}
  {
    assert t in Tables(ram, root);
    TreeFrame(ram, ram1, root);
    SetLeaf(ram1, root, v, t, 0);
  }

  lemma AddressOf(e: nat)
    requires Ppn(e) < RAM_END
    ensures PteToPa(e) % 4096 == 0 && PteToPa(e) / 4096 == Ppn(e)
  {
  }

  /** The address in the leaf entry of a freeable page. */
  lemma LeafAddress(ram: Ram, free: set<nat>, root: nat, first: nat, v: nat, e: nat)
    requires root in ram && v in Flat(ram, root) && Flat(ram, root)[v] == e
    requires Freeable(ram, free, root, first, v, v + 1)
    ensures PteToPa(e) % 4096 == 0 && PteToPa(e) / 4096 == Ppn(e)
    ensures first <= Ppn(e) < RAM_END && Ppn(e) !in free && Ppn(e) !in Tables(ram, root)
  {
    AddressOf(e);
  }

  /** Clears the valid entry of v in its table t, freeing its page first if `drop`. */
  method UnmapEntry(m: Machine, root: nat, v: nat, t: nat, drop: bool)
    requires m.Valid() && TableOk(m.ram, m.Free(), root) && v in Flat(m.ram, root)
    requires IsValid(Entry1(m.ram, root, v / 1024)) && t == Ppn(Entry1(m.ram, root, v / 1024))
    requires drop ==> Freeable(m.ram, m.Free(), root, m.first, v, v + 1)
    modifies m, m.bitmap
    ensures m.Valid()
    ensures Unmapped(old(m.ram), old(m.Free()), m.ram, m.Free(), root, v, v + 1, drop)
  {
    var e := Word(m.ram[t], v % 1024);
    ghost var ram0, free0 := m.ram, m.Free();
    assert Flat(ram0, root)[v] == e;
    if drop {
      LeafAddress(ram0, free0, root, m.first, v, e);
      m.Kfree(PteToPa(e));
    }
    ClearLeaf(ram0, root, v, t, drop, m.ram);
    m.ram := m.ram[t := SetWord(m.ram[t], v % 1024, 0)];
    UnmapLeaf(ram0, free0, m.ram, root, v, t, m.ram[t], drop);
  }

  /** One round of uvmunmap. */
  method UnmapOne(m: Machine, root: nat, v: nat, drop: bool)
    requires m.Valid() && TableOk(m.ram, m.Free(), root) && v < VPNS
    requires drop ==> Freeable(m.ram, m.Free(), root, m.first, v, v + 1)
    modifies m, m.bitmap
    ensures m.Valid()
    ensures Unmapped(old(m.ram), old(m.Free()), m.ram, m.Free(), root, v, v + 1, drop)
  {
    var t := TableFor(m.ram, root, v);
    TableForIs(m.ram, root, v);
    if t == 0 || !IsValid(Word(m.ram[t], v % 1024)) {
      UnmapNone(m.ram, m.Free(), root, v, v + 1, drop);
      return;
    }
    UnmapEntry(m, root, v, t, drop);
  }

  /** Unmapping a range and then the next page unmaps the longer range. */
  lemma UnmapTrans(ram0: Ram, free0: set<nat>, ram1: Ram, free1: set<nat>, ram2: Ram, free2: set<nat>,
                   root: nat, lo: nat, mid: nat, drop: bool)
    requires lo <= mid && TableOk(ram0, free0, root)
    requires Unmapped(ram0, free0, ram1, free1, root, lo, mid, drop)
    requires Unmapped(ram1, free1, ram2, free2, root, mid, mid + 1, drop)
    ensures Unmapped(ram0, free0, ram2, free2, root, lo, mid + 1, drop)
  {
    SplitRange(Flat(ram0, root), lo, mid);
  }

  lemma SplitRange(flat: map<nat, nat>, lo: nat, mid: nat)
    requires lo <= mid
    ensures PagesOf(flat, lo, mid + 1) == PagesOf(flat, lo, mid) + PagesOf(Without(flat, lo, mid), mid, mid + 1)
    ensures Without(flat, lo, mid + 1) == Without(Without(flat, lo, mid), mid, mid + 1)
  {
    var rest := Without(flat, lo, mid);
    assert forall v :: v in flat && mid <= v < mid + 1 ==> v in rest && rest[v] == flat[v];
  }

  lemma StillFreeable(ram0: Ram, free0: set<nat>, ram1: Ram, free1: set<nat>, root: nat, first: nat, lo: nat,
                      mid: nat, hi: nat)
    requires lo <= mid < hi && TableOk(ram0, free0, root) && Freeable(ram0, free0, root, first, lo, hi)
    requires Unmapped(ram0, free0, ram1, free1, root, lo, mid, true)
    ensures Freeable(ram1, free1, root, first, mid, mid + 1)
  {
    var flat0, flat1 := Flat(ram0, root), Flat(ram1, root);
    forall v | v in flat1 && mid <= v < mid + 1
      ensures v in flat0 && flat1[v] == flat0[v] && Ppn(flat1[v]) !in PagesOf(flat0, lo, mid)
    {
    }
  }

  /** One more page of a range. */
  method UnmapNext(m: Machine, root: nat, v: nat, drop: bool, ghost v': nat, ghost ram0: Ram, ghost free0: set<nat>,
                   ghost lo: nat, ghost hi: nat)
    requires m.Valid() && lo <= v < hi <= VPNS && v' == v + 1 && TableOk(ram0, free0, root)
    requires drop ==> Freeable(ram0, free0, root, m.first, lo, hi)
    requires Unmapped(ram0, free0, m.ram, m.Free(), root, lo, v, drop)
    modifies m, m.bitmap
    ensures m.Valid() && Unmapped(ram0, free0, m.ram, m.Free(), root, lo, v', drop)
  {
    ghost var ram1, free1 := m.ram, m.Free();
    if drop {
      StillFreeable(ram0, free0, ram1, free1, root, m.first, lo, v, hi);
    }
    UnmapOne(m, root, v, drop);
    UnmapTrans(ram0, free0, ram1, free1, m.ram, m.Free(), root, lo, v, drop);
  }

  /** The loop of uvmunmap, by page number. */
  method UnmapRange(m: Machine, root: nat, lo: nat, hi: nat, drop: bool)
    requires m.Valid() && TableOk(m.ram, m.Free(), root) && hi <= VPNS
    requires drop ==> Freeable(m.ram, m.Free(), root, m.first, lo, hi)
    modifies m, m.bitmap
    ensures m.Valid()
    ensures Unmapped(old(m.ram), old(m.Free()), m.ram, m.Free(), root, lo, hi, drop)
  {
    ghost var ram0, free0 := m.ram, m.Free();
    var v := lo;
    UnmapNone(ram0, free0, root, lo, if hi <= lo then hi else lo, drop);
    if hi <= lo {
      return;
    }
    while v < hi
      invariant lo <= v <= hi && m.Valid()
      invariant Unmapped(ram0, free0, m.ram, m.Free(), root, lo, v, drop)
    {
      var v' := v + 1;
      UnmapNext(m, root, v, drop, v', ram0, free0, lo, hi);
      v := v';
    }
  }

  /** The page after a range, whose end address is taken in 32 bits. */
  function EndPage(va: nat, size: nat): (hi: nat)
    ensures hi < VPNS
  {
    (va + size) % 0x1_0000_0000 / 4096
  }

  /** uvmunmap: unmaps exactly the pages from va up to va + size, which is taken in 32 bits; its
      alignment panic is the precondition. */
  method UvmUnmap(m: Machine, root: nat, va: nat, size: nat, drop: bool)
    requires m.Valid() && TableOk(m.ram, m.Free(), root)
    requires va < 0x1_0000_0000 && va % 4096 == 0 && size < 0x1_0000_0000 && size % 4096 == 0
    requires drop ==> Freeable(m.ram, m.Free(), root, m.first, va / 4096, EndPage(va, size))
    modifies m, m.bitmap
    ensures m.Valid()
    ensures Unmapped(old(m.ram), old(m.Free()), m.ram, m.Free(), root, va / 4096, EndPage(va, size), drop)
  {
    UnmapRange(m, root, va / 4096, EndPage(va, size), drop);
  }

  // ---------------------------------------------------------------- freewalk

  ghost function SubTables(ram: Ram, root: nat, n: nat): set<nat>
    requires root in ram && n <= 1024
  {
    set i | 0 <= i < n && IsValid(Entry1(ram, root, i)) :: Ppn(Entry1(ram, root, i))
  }

  lemma NextSubTable(ram: Ram, root: nat, i: nat)
    requires TreeOk(ram, root) && i < 1024
    ensures var e := Entry1(ram, root, i);
            if IsValid(e) then Ppn(e) in Tables(ram, root) && Ppn(e) != root && Ppn(e) !in SubTables(ram, root, i)
                               && SubTables(ram, root, i + 1) == SubTables(ram, root, i) + {Ppn(e)}
            else SubTables(ram, root, i + 1) == SubTables(ram, root, i)
  {
  }

  lemma AllTables(ram: Ram, root: nat)
    requires TreeOk(ram, root)
    ensures Tables(ram, root) == SubTables(ram, root, 1024) + {root} && root !in SubTables(ram, root, 1024)
    ensures SubTables(ram, root, 0) == {}
  {
  }

  ghost predicate AllAllocatable(s: set<nat>, first: nat) {
    forall p :: p in s ==> first <= p < RAM_END
  }

  /** The first n second-level tables have been freed, and nothing else. */
  ghost predicate Walked(ram: Ram, free: set<nat>, ram': Ram, free': set<nat>, root: nat, n: nat)
    requires root in ram && n <= 1024
  {
    && root in ram' && ram'[root] == ram[root]
    && free' == free + SubTables(ram, root, n)
    && SameOutside(ram, ram', SubTables(ram, root, n))
  }

  /** One round of freewalk. */
  method FreeTable(m: Machine, root: nat, i: nat, ghost ram0: Ram, ghost free0: set<nat>)
    requires m.Valid() && i < 1024 && TableOk(ram0, free0, root) && AllAllocatable(Tables(ram0, root), m.first)
    requires Walked(ram0, free0, m.ram, m.Free(), root, i)
    modifies m, m.bitmap
    ensures m.Valid() && Walked(ram0, free0, m.ram, m.Free(), root, i + 1)
  {
    var e := Word(m.ram[root], i);
    NextSubTable(ram0, root, i);
    assert e == Entry1(ram0, root, i);
    if IsValid(e) {
      AddressOf(e);
      m.Kfree(PteToPa(e));
    }
  }

  /** freewalk: every table page becomes free, and nothing else. */
  method FreeWalk(m: Machine, root: nat)
    requires m.Valid() && TableOk(m.ram, m.Free(), root) && AllAllocatable(Tables(m.ram, root), m.first)
    modifies m, m.bitmap
    ensures m.Valid() && m.Free() == old(m.Free()) + old(Tables(m.ram, root))
    ensures SameOutside(old(m.ram), m.ram, old(Tables(m.ram, root)))
  {
    ghost var ram0, free0 := m.ram, m.Free();
    AllTables(ram0, root);
    var i := 0;
    while i < 1024
      invariant 0 <= i <= 1024 && m.Valid()
      invariant Walked(ram0, free0, m.ram, m.Free(), root, i)
    {
      FreeTable(m, root, i, ram0, free0);
      i := i + 1;
    }
    AddressOfPage(root);
    m.Kfree(root * 4096);
  }

  lemma AddressOfPage(p: nat)
    ensures p * 4096 % 4096 == 0 && p * 4096 / 4096 == p
  {
  }
}

/** kernel/vm.c: building page tables. */
module Vm {
  import opened Layout
  import opened PageTable
  import opened Memory

  /** A page table and the free pages that do not overlap. */
  ghost predicate TableOk(ram: Ram, free: set<nat>, root: nat) {
    TreeOk(ram, root) && Tables(ram, root) !! free
  }

  /** From (ram, free) to (ram', free'), free pages may have become tables of root, and nothing but
      free pages and tables of root was written. */
  ghost predicate Grown(ram: Ram, free: set<nat>, ram': Ram, free': set<nat>, root: nat)
    requires root in ram && root in ram'
  {
    && free' + Tables(ram', root) == free + Tables(ram, root) && free' <= free
    && SameOutside(ram, ram', free + Tables(ram, root))
  }

  lemma GrownTrans(ram0: Ram, free0: set<nat>, ram1: Ram, free1: set<nat>, ram2: Ram, free2: set<nat>, root: nat)
    requires root in ram0 && root in ram1 && root in ram2
    requires Grown(ram0, free0, ram1, free1, root) && Grown(ram1, free1, ram2, free2, root)
    ensures Grown(ram0, free0, ram2, free2, root)
  {
  }

  /** find_pte with alloc: the second-level table that holds va's entry, made on demand; 0 exactly
      when it is missing and no page is left. */
  method FindPte(m: Machine, root: nat, va: nat) returns (t: nat)
    requires m.Valid() && TableOk(m.ram, m.Free(), root) && va < 0x1_0000_0000
    modifies m, m.bitmap
    ensures m.Valid() && TableOk(m.ram, m.Free(), root)
    ensures Flat(m.ram, root) == old(Flat(m.ram, root))
    ensures t == 0 ==> m.ram == old(m.ram) && m.Free() == old(m.Free()) == {}
    ensures t != 0 ==> IsValid(Entry1(m.ram, root, va / 4096 / 1024)) && t == Ppn(Entry1(m.ram, root, va / 4096 / 1024))
    ensures Grown(old(m.ram), old(m.Free()), m.ram, m.Free(), root)
    ensures t == 0 <==> old(m.Free()) == {} && va / 4096 / 1024 !in old(TableSet(m.ram, root))
    ensures t != 0 ==> TableSet(m.ram, root) == old(TableSet(m.ram, root)) + {va / 4096 / 1024}
  {
    var i := va / 4096 / 1024;
    var e := Word(m.ram[root], i);
    if IsValid(e) {
      t := PteToPa(e) / 4096;
      assert e == Entry1(m.ram, root, i) && t == Ppn(e);
      return;
    }
    ghost var ram0, free0 := m.ram, m.Free();
    var pa := m.Kalloc();
    if pa == 0 {
      t := 0;
      return;
    }
    t := pa / 4096;
    m.ZeroPage(pa);
    PteRoundTrip(pa, 0);
    e := MakePte(pa, 0);
    m.ram := m.ram[root := SetWord(m.ram[root], i, e)];
    AddTable(ram0, m.ram, root, i, t, e);
    assert m.Free() == free0 - {t};
  }

  /** mappage: adds exactly the translation va -> (pa, flags); nothing changes if no table page is left. */
  method MapPage(m: Machine, root: nat, va: nat, pa: nat, flags: nat) returns (ok: bool)
    requires m.Valid() && TableOk(m.ram, m.Free(), root)
    requires va < 0x1_0000_0000 && va % 4096 == 0 && pa < 0x1_0000_0000 && pa % 4096 == 0 && flags < 1024
    requires va / 4096 !in Flat(m.ram, root)
    modifies m, m.bitmap
    ensures m.Valid() && TableOk(m.ram, m.Free(), root)
    ensures ok ==> Flat(m.ram, root) == old(Flat(m.ram, root))[va / 4096 := MakePte(pa, flags)]
    ensures !ok ==> m.ram == old(m.ram) && m.Free() == old(m.Free()) == {}
    ensures Grown(old(m.ram), old(m.Free()), m.ram, m.Free(), root)
    ensures ok <==> !(old(m.Free()) == {} && va / 4096 / 1024 !in old(TableSet(m.ram, root)))
    ensures ok ==> TableSet(m.ram, root) == old(TableSet(m.ram, root)) + {va / 4096 / 1024}
  {
    var t := FindPte(m, root, va);
    if t == 0 {
      return false;
    }
    PteRoundTrip(pa, flags);
    SetLeaf(m.ram, root, va / 4096, t, MakePte(pa, flags));
    m.ram := m.ram[t := SetWord(m.ram[t], va / 4096 % 1024, MakePte(pa, flags))];
    ok := true;
  }

  // ---------------------------------------------------------------- mappages

  /** The page after v, wrapping past the top of the address space. */
  function Succ(v: nat): nat {
    if v + 1 == VPNS then 0 else v + 1
  }

  /** Page k of a run of pages that starts at page v0. */
  function Nth(v0: nat, k: nat): (v: nat)
    requires v0 < VPNS
    ensures v < VPNS
  {
    if k == 0 then v0 else Succ(Nth(v0, k - 1))
  }

  /** The position of page v in such a run. */
  function Offset(v: nat, v0: nat): nat
    requires v < VPNS && v0 < VPNS
  {
    if v >= v0 then v - v0 else v + VPNS - v0
  }

  lemma {:induction false} NthIs(v0: nat, k: nat)
    requires v0 < VPNS && k < VPNS
    ensures Nth(v0, k) == if v0 + k < VPNS then v0 + k else v0 + k - VPNS
    ensures Offset(Nth(v0, k), v0) == k
  {
    if k > 0 {
      NthIs(v0, k - 1);
    }
  }

  /** n consecutive translations from page v0 and physical page p0 on. */
  ghost function Run(v0: nat, p0: nat, n: nat, flags: nat): map<nat, nat>
    requires v0 < VPNS && p0 < VPNS
  {
    map v: nat | v < VPNS && Offset(v, v0) < n :: MakePte(Nth(p0, Offset(v, v0)) * 4096, flags)
  }

  lemma RunGrows(v0: nat, p0: nat, n: nat, flags: nat)
    requires v0 < VPNS && p0 < VPNS && n < VPNS
    ensures var v := Nth(v0, n);
            && Offset(v, v0) == n && v !in Run(v0, p0, n, flags)
            && Run(v0, p0, n + 1, flags) == Run(v0, p0, n, flags)[v := MakePte(Nth(p0, n) * 4096, flags)]
  {
    NthIs(v0, n);
  }

  /** Page addresses in 32-bit arithmetic. */
  lemma PageAddress(v: nat)
    requires v < VPNS
    ensures v * 4096 < 0x1_0000_0000 && v * 4096 % 4096 == 0 && v * 4096 / 4096 == v
    ensures (v * 4096 + 4096) % 0x1_0000_0000 == Succ(v) * 4096
  {
  }

  /** curr += PAGE_SIZE in 32 bits. */
  function NextPage(a: nat): nat {
    (a + 4096) % 0x1_0000_0000
  }

  lemma NextAddress(v0: nat, k: nat, k': nat, a: nat)
    requires v0 < VPNS && k' == k + 1 && a == Nth(v0, k) * 4096
    ensures a < 0x1_0000_0000 && a % 4096 == 0 && a / 4096 == Nth(v0, k)
    ensures NextPage(a) == Nth(v0, k') * 4096
  {
    PageAddress(Nth(v0, k));
  }

  lemma NextUnmapped(flat: map<nat, nat>, v0: nat, p0: nat, n: nat, total: nat, flags: nat)
    requires v0 < VPNS && p0 < VPNS && n < total < VPNS
    requires forall v :: v in Run(v0, p0, total, flags) ==> v !in flat
    ensures Nth(v0, n) !in flat + Run(v0, p0, n, flags)
    ensures (flat + Run(v0, p0, n, flags))[Nth(v0, n) := MakePte(Nth(p0, n) * 4096, flags)] ==
            flat + Run(v0, p0, n + 1, flags)
  {
    RunGrows(v0, p0, n, flags);
    assert Nth(v0, n) in Run(v0, p0, total, flags);
  }

  /** The loop of mappages ends after n pages and not before. */
  lemma NthDiffers(v0: nat, k: nat, n: nat)
    requires v0 < VPNS && k <= n < VPNS
    ensures Nth(v0, k) == Nth(v0, n) <==> k == n
  {
    NthIs(v0, k);
    NthIs(v0, n);
  }

  lemma WrapEnd(va: nat, size: nat)
    requires va < 0x1_0000_0000 && va % 4096 == 0 && size < 0x1_0000_0000 && size % 4096 == 0
    ensures Nth(va / 4096, size / 4096) * 4096 == (va + size) % 0x1_0000_0000
  {
    NthIs(va / 4096, size / 4096);
  }

  /** From (ram, free) to (ram', free'), root gained exactly the first n translations of a run. */
  ghost predicate Mapped(ram: Ram, free: set<nat>, ram': Ram, free': set<nat>, root: nat, v0: nat, p0: nat, n: nat,
                         flags: nat)
    requires root in ram && v0 < VPNS && p0 < VPNS
  {
    && TableOk(ram', free', root)
    && Flat(ram', root) == Flat(ram, root) + Run(v0, p0, n, flags)
    && Grown(ram, free, ram', free', root)
  }

  lemma MappedNone(ram: Ram, free: set<nat>, root: nat, v0: nat, p0: nat, flags: nat)
    requires TableOk(ram, free, root) && v0 < VPNS && p0 < VPNS
    ensures Mapped(ram, free, ram, free, root, v0, p0, 0, flags)
  {
    assert Run(v0, p0, 0, flags) == map[];
  }

  lemma MappedNext(ram0: Ram, free0: set<nat>, ram1: Ram, free1: set<nat>, ram2: Ram, free2: set<nat>,
                   root: nat, v0: nat, p0: nat, n: nat, total: nat, flags: nat)
    requires root in ram0 && v0 < VPNS && p0 < VPNS && n < total < VPNS
    requires forall v :: v in Run(v0, p0, total, flags) ==> v !in Flat(ram0, root)
    requires Mapped(ram0, free0, ram1, free1, root, v0, p0, n, flags)
    requires TableOk(ram2, free2, root) && Grown(ram1, free1, ram2, free2, root)
    requires Flat(ram2, root) == Flat(ram1, root)[Nth(v0, n) := MakePte(Nth(p0, n) * 4096, flags)]
    ensures Mapped(ram0, free0, ram2, free2, root, v0, p0, n + 1, flags)
  {
    NextUnmapped(Flat(ram0, root), v0, p0, n, total, flags);
    GrownTrans(ram0, free0, ram1, free1, ram2, free2, root);
  }

  lemma InRun(v0: nat, p0: nat, k: nat, n: nat, flags: nat)
    requires v0 < VPNS && p0 < VPNS && k < n < VPNS
    ensures Nth(v0, k) in Run(v0, p0, n, flags)
  {
    NthIs(v0, k);
  }

  /** One round of mappages. */
  method MapNth(m: Machine, root: nat, va: nat, pa: nat, flags: nat, ghost ram0: Ram, ghost free0: set<nat>,
                ghost v0: nat, ghost p0: nat, ghost k: nat, ghost k': nat, ghost n: nat, ghost tables: set<nat>)
    returns (ok: bool)
    requires m.Valid() && v0 < VPNS && p0 < VPNS && k < n < VPNS && k' == k + 1 && flags < 1024
    requires va == Nth(v0, k) * 4096 && pa == Nth(p0, k) * 4096
    requires root in ram0 && forall v :: v in Run(v0, p0, n, flags) ==> v !in Flat(ram0, root)
    requires Mapped(ram0, free0, m.ram, m.Free(), root, v0, p0, k, flags)
    requires TableSet(m.ram, root) <= tables && forall v :: v in Run(v0, p0, n, flags) ==> v / 1024 in tables
    modifies m, m.bitmap
    ensures m.Valid()
    ensures ok ==> Mapped(ram0, free0, m.ram, m.Free(), root, v0, p0, k', flags)
    ensures !ok ==> Mapped(ram0, free0, m.ram, m.Free(), root, v0, p0, k, flags) && m.Free() == {}
    ensures TableSet(m.ram, root) <= tables && (!ok ==> TableSet(m.ram, root) < tables)
  {
    InRun(v0, p0, k, n, flags);
    NextAddress(v0, k, k', va);
    NextAddress(p0, k, k', pa);
    NextUnmapped(Flat(ram0, root), v0, p0, k, n, flags);
    ghost var ram1, free1 := m.ram, m.Free();
    ok := MapPage(m, root, va, pa, flags);
    if ok {
      MappedNext(ram0, free0, ram1, free1, m.ram, m.Free(), root, v0, p0, k, n, flags);
    }
  }

  /** The loop of mappages, from page v0 up to but not including the page at `end`. */
  method MapRun(m: Machine, root: nat, va: nat, pa: nat, end: nat, flags: nat,
                ghost v0: nat, ghost p0: nat, ghost n: nat, ghost tables: set<nat>)
    returns (ok: bool, ghost done: nat)
    requires m.Valid() && TableOk(m.ram, m.Free(), root)
    requires v0 < VPNS && p0 < VPNS && 0 < n < VPNS && flags < 1024
    requires va == v0 * 4096 && pa == p0 * 4096 && end == Nth(v0, n) * 4096
    requires forall v :: v in Run(v0, p0, n, flags) ==> v !in Flat(m.ram, root)
    requires TableSet(m.ram, root) <= tables && forall v :: v in Run(v0, p0, n, flags) ==> v / 1024 in tables
    modifies m, m.bitmap
    ensures m.Valid()
    ensures done <= n && (ok <==> done == n) && (!ok ==> m.Free() == {})
    ensures Mapped(old(m.ram), old(m.Free()), m.ram, m.Free(), root, v0, p0, done, flags)
    ensures TableSet(m.ram, root) <= tables && (!ok ==> TableSet(m.ram, root) < tables)
  {
    var currVa, currPa := va, pa;
    done := 0;
    ghost var ram0, free0 := m.ram, m.Free();
    NthDiffers(v0, done, n);
    MappedNone(m.ram, m.Free(), root, v0, p0, flags);
    while currVa != end
      invariant m.Valid()
      invariant done <= n && currVa == Nth(v0, done) * 4096 && currPa == Nth(p0, done) * 4096
      invariant Mapped(ram0, free0, m.ram, m.Free(), root, v0, p0, done, flags)
      invariant TableSet(m.ram, root) <= tables
      decreases n - done
    {
      var nextVa, nextPa := NextPage(currVa), NextPage(currPa);
      ghost var done' := done + 1;
      NextAddress(v0, done, done', currVa);
      NextAddress(p0, done, done', currPa);
      ok := MapNth(m, root, currVa, currPa, flags, ram0, free0, v0, p0, done, done', n, tables);
      if !ok {
        return;
      }
      currVa, currPa, done := nextVa, nextPa, done';
    }
    NthDiffers(v0, done, n);
    ok := true;
  }

  /** mappages: rejects unaligned or empty ranges, otherwise maps size / 4096 pages in order, also when
      the end of the range wraps to 0; `done` counts the pages mapped before memory ran out.  `tables` is any
      set of table indices that covers the old tables and the range: memory runs out only while one of
      them is missing. */
  method MapPages(m: Machine, root: nat, va: nat, pa: nat, size: nat, flags: nat, ghost tables: set<nat>)
    returns (ok: bool, ghost done: nat)
    requires m.Valid() && TableOk(m.ram, m.Free(), root)
    requires va < 0x1_0000_0000 && pa < 0x1_0000_0000 && size < 0x1_0000_0000 && flags < 1024
    requires forall v :: v in Run(va / 4096, pa / 4096, size / 4096, flags) ==> v !in Flat(m.ram, root)
    requires TableSet(m.ram, root) <= tables
    requires forall v :: v in Run(va / 4096, pa / 4096, size / 4096, flags) ==> v / 1024 in tables
    modifies m, m.bitmap
    ensures m.Valid() && Mapped(old(m.ram), old(m.Free()), m.ram, m.Free(), root, va / 4096, pa / 4096, done, flags)
    ensures ok <==> va % 4096 == 0 && pa % 4096 == 0 && size % 4096 == 0 && size != 0 && done == size / 4096
    ensures done <= size / 4096
    ensures TableSet(m.ram, root) <= tables
    ensures !ok && va % 4096 == 0 && pa % 4096 == 0 && size % 4096 == 0 && size != 0 ==>
              m.Free() == {} && TableSet(m.ram, root) < tables
  {
    if va % 4096 != 0 || pa % 4096 != 0 || size % 4096 != 0 || size == 0 {
      MappedNone(m.ram, m.Free(), root, va / 4096, pa / 4096, flags);
      return false, 0;
    }
    WrapEnd(va, size);
    ok, done := MapRun(m, root, va, pa, (va + size) % 0x1_0000_0000, flags, va / 4096, pa / 4096, size / 4096, tables);
  }
}

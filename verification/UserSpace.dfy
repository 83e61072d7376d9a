/** kernel/vm.c and kernel/proc.c: whole user address spaces, what a user sees through one, and who
    owns its pages. */
module UserSpace {
  import opened Layout
  import opened PageTable
  import opened Memory
  import opened Vm
  import opened Space

  /** A page as its user sees it. */
  datatype UserPage = UserPage(flags: nat, bytes: Page)

  type View = map<nat, UserPage>

  /** Only user pages carry PTE_U, and each user page is an allocated page used once. */
  ghost predicate FlatOk(flat: map<nat, nat>, tables: set<nat>, free: set<nat>, first: nat) {
    && (forall v :: v in flat ==> (HasBit(flat[v], PTE_U) <==> UserVpn(v)))
    && (forall v :: v in flat && UserVpn(v) ==>
          first <= Ppn(flat[v]) < RAM_END && Ppn(flat[v]) !in free && Ppn(flat[v]) !in tables)
    && (forall v, w :: v in flat && w in flat && UserVpn(v) && UserVpn(w) && Ppn(flat[v]) == Ppn(flat[w]) ==> v == w)
  }

  ghost predicate SpaceOk(ram: Ram, free: set<nat>, root: nat, first: nat) {
    && TableOk(ram, free, root) && AllAllocatable(Tables(ram, root), first)
    && FlatOk(Flat(ram, root), Tables(ram, root), free, first)
  }

  /** The pages a space owns: its tables and its user pages. */
  ghost function SpacePages(ram: Ram, root: nat): set<nat>
    requires root in ram
  {
    Tables(ram, root) + Owned(Flat(ram, root))
  }

  ghost function ViewOf(flat: map<nat, nat>, ram: Ram): View {
    map v | v in flat && UserVpn(v) && Ppn(flat[v]) in ram :: UserPage(PteFlags(flat[v]), ram[Ppn(flat[v])])
  }

  /** What the user of a space sees: for every user page its flags and its contents. */
  ghost function UserView(ram: Ram, root: nat): View
    requires root in ram
  {
    ViewOf(Flat(ram, root), ram)
  }

  ghost predicate AllRam(ram: Ram) {
    forall p :: p in ram <==> InRam(p)
  }

  /** From (ram, free) to (ram', free') no page was lost or gained by free memory and the space
      together, and nothing outside the two was written. */
  ghost predicate Kept(ram: Ram, free: set<nat>, ram': Ram, free': set<nat>, root: nat, first: nat)
    requires root in ram
  {
    && SpaceOk(ram', free', root, first)
    && free' + SpacePages(ram', root) == free + SpacePages(ram, root)
    && SameOutside(ram, ram', free + SpacePages(ram, root))
  }

  /** Pages of the space may have become free; nothing outside the space was written. */
  ghost predicate Shrunk(ram: Ram, free: set<nat>, ram': Ram, free': set<nat>, root: nat, first: nat)
    requires root in ram
  {
    && SpaceOk(ram', free', root, first)
    && free' + SpacePages(ram', root) == free + SpacePages(ram, root)
    && SpacePages(ram', root) <= SpacePages(ram, root)
    && SameOutside(ram, ram', SpacePages(ram, root))
  }

  lemma KeptTrans(ram0: Ram, free0: set<nat>, ram1: Ram, free1: set<nat>, ram2: Ram, free2: set<nat>, root: nat,
                  first: nat)
    requires root in ram0 && Kept(ram0, free0, ram1, free1, root, first) && Kept(ram1, free1, ram2, free2, root, first)
    ensures Kept(ram0, free0, ram2, free2, root, first)
  {
  }

  /** What happens outside a space leaves it and its view alone. */
  lemma SpaceFrame(ram: Ram, free: set<nat>, ram': Ram, free': set<nat>, root: nat, first: nat, s: set<nat>)
    requires SpaceOk(ram, free, root, first) && SameOutside(ram, ram', s) && s !! SpacePages(ram, root)
    requires free' !! SpacePages(ram, root) && AllRam(ram) && AllRam(ram') && RAM_FIRST <= first
    ensures SpaceOk(ram', free', root, first)
    ensures SpacePages(ram', root) == SpacePages(ram, root) && UserView(ram', root) == UserView(ram, root)
    ensures Flat(ram', root) == Flat(ram, root) && Tables(ram', root) == Tables(ram, root)
    ensures TableSet(ram', root) == TableSet(ram, root)
  {
    TreeFrame(ram, ram', root);
    FlatFrame(Flat(ram, root), Tables(ram, root), free, free', first);
    ViewFrame(Flat(ram, root), ram, ram', s);
  }

  lemma FlatFrame(flat: map<nat, nat>, tables: set<nat>, free: set<nat>, free': set<nat>, first: nat)
    requires FlatOk(flat, tables, free, first) && Owned(flat) !! free'
    ensures FlatOk(flat, tables, free', first)
  {
    forall v | v in flat && UserVpn(v)
      ensures Ppn(flat[v]) !in free'
    {
      assert Ppn(flat[v]) in Owned(flat);
    }
  }

  lemma ViewFrame(flat: map<nat, nat>, ram: Ram, ram': Ram, s: set<nat>)
    requires AllRam(ram) && AllRam(ram') && SameOutside(ram, ram', s) && Owned(flat) !! s
    ensures ViewOf(flat, ram') == ViewOf(flat, ram)
  {
    forall v | v in flat && UserVpn(v) && Ppn(flat[v]) in ram
      ensures ram'[Ppn(flat[v])] == ram[Ppn(flat[v])]
    {
      assert Ppn(flat[v]) in Owned(flat);
    }
  }

  // ---------------------------------------------------------------- unmapping user pages

  lemma UserFreeable(ram: Ram, free: set<nat>, root: nat, first: nat, lo: nat, hi: nat)
    requires SpaceOk(ram, free, root, first) && forall v :: lo <= v < hi ==> UserVpn(v)
    ensures Freeable(ram, free, root, first, lo, hi)
  {
  }

  ghost function ViewWithout(view: View, lo: nat, hi: nat): View {
    map v | v in view && !(lo <= v < hi) :: view[v]
  }

  lemma OwnedSplit(flat: map<nat, nat>, lo: nat, hi: nat)
    requires forall v :: lo <= v < hi ==> UserVpn(v)
    ensures Owned(flat) == Owned(Without(flat, lo, hi)) + PagesOf(flat, lo, hi)
  {
    var rest := Without(flat, lo, hi);
    forall v | v in flat && UserVpn(v)
      ensures Ppn(flat[v]) in Owned(rest) + PagesOf(flat, lo, hi)
    {
      if !(lo <= v < hi) {
        assert v in rest && rest[v] == flat[v];
      }
    }
  }

  lemma FlatOkWithout(flat: map<nat, nat>, tables: set<nat>, free: set<nat>, first: nat, lo: nat, hi: nat)
    requires FlatOk(flat, tables, free, first) && forall v :: lo <= v < hi ==> UserVpn(v)
    ensures FlatOk(Without(flat, lo, hi), tables, free + PagesOf(flat, lo, hi), first)
    ensures Owned(Without(flat, lo, hi)) !! PagesOf(flat, lo, hi)
    ensures PagesOf(flat, lo, hi) !! tables
  {
  }

  lemma ViewOfWithout(flat: map<nat, nat>, ram: Ram, ram': Ram, s: set<nat>, lo: nat, hi: nat)
    requires SameOutside(ram, ram', s) && Owned(Without(flat, lo, hi)) !! s
    requires forall p :: p in ram <==> p in ram'
    ensures ViewOf(Without(flat, lo, hi), ram') == ViewWithout(ViewOf(flat, ram), lo, hi)
  {
    var rest := Without(flat, lo, hi);
    forall v | v in rest && UserVpn(v) && Ppn(rest[v]) in ram
      ensures ram'[Ppn(rest[v])] == ram[Ppn(rest[v])]
    {
      assert Ppn(rest[v]) in Owned(rest);
    }
  }

  /** Unmapping and freeing user pages keeps every page accounted for and every other page in view. */
  lemma UnmapKeeps(ram: Ram, free: set<nat>, ram': Ram, free': set<nat>, root: nat, first: nat, lo: nat, hi: nat)
    requires SpaceOk(ram, free, root, first) && Unmapped(ram, free, ram', free', root, lo, hi, true)
    requires forall v :: lo <= v < hi ==> UserVpn(v)
    requires AllRam(ram) && AllRam(ram')
    ensures Shrunk(ram, free, ram', free', root, first)
    ensures UserView(ram', root) == ViewWithout(UserView(ram, root), lo, hi)
  {
    var flat := Flat(ram, root);
    OwnedSplit(flat, lo, hi);
    FlatOkWithout(flat, Tables(ram, root), free, first, lo, hi);
    OwnedNoTable(Without(flat, lo, hi), Tables(ram, root), free', first);
    ViewOfWithout(flat, ram, ram', Tables(ram, root) + PagesOf(flat, lo, hi), lo, hi);
  }

  lemma OwnedNoTable(flat: map<nat, nat>, tables: set<nat>, free: set<nat>, first: nat)
    requires FlatOk(flat, tables, free, first)
    ensures Owned(flat) !! tables && Owned(flat) !! free
  {
  }

  // ---------------------------------------------------------------- uvmfree

  /** The user image ends at size: uvmfree finds every user page. */
  ghost predicate EndsAt(view: View, size: nat) {
    forall v :: v in view ==> v * 4096 < size || v == STACK_VPN
  }

  /** uvmunmap with `free` on a range of user pages of a space. */
  method UnmapUser(m: Machine, root: nat, va: nat, size: nat)
    requires m.Valid() && SpaceOk(m.ram, m.Free(), root, m.first)
    requires va < 0x1_0000_0000 && va % 4096 == 0 && size < 0x1_0000_0000 && size % 4096 == 0
    requires forall v :: va / 4096 <= v < EndPage(va, size) ==> UserVpn(v)
    modifies m, m.bitmap
    ensures m.Valid()
    ensures Shrunk(old(m.ram), old(m.Free()), m.ram, m.Free(), root, m.first)
    ensures Flat(m.ram, root) == Without(old(Flat(m.ram, root)), va / 4096, EndPage(va, size))
    ensures UserView(m.ram, root) == ViewWithout(old(UserView(m.ram, root)), va / 4096, EndPage(va, size))
  {
    ghost var ram0, free0 := m.ram, m.Free();
    UserFreeable(ram0, free0, root, m.first, va / 4096, EndPage(va, size));
    UvmUnmap(m, root, va, size, true);
    UnmapKeeps(ram0, free0, m.ram, m.Free(), root, m.first, va / 4096, EndPage(va, size));
  }

  lemma ViewKeys(flat: map<nat, nat>, tables: set<nat>, free: set<nat>, first: nat, ram: Ram)
    requires FlatOk(flat, tables, free, first) && AllRam(ram) && RAM_FIRST <= first
    ensures forall v :: v in ViewOf(flat, ram) <==> v in flat && UserVpn(v)
  {
    assert forall v :: v in flat && UserVpn(v) ==> InRam(Ppn(flat[v]));
  }

  lemma NothingLeft(ram: Ram, free: set<nat>, root: nat, first: nat)
    requires SpaceOk(ram, free, root, first) && AllRam(ram) && RAM_FIRST <= first && UserView(ram, root) == map[]
    ensures SpacePages(ram, root) == Tables(ram, root)
  {
    ViewKeys(Flat(ram, root), Tables(ram, root), free, first, ram);
  }

  lemma ShrunkTrans(ram0: Ram, free0: set<nat>, ram1: Ram, free1: set<nat>, ram2: Ram, free2: set<nat>, root: nat,
                    first: nat)
    requires root in ram0 && Shrunk(ram0, free0, ram1, free1, root, first)
    requires Shrunk(ram1, free1, ram2, free2, root, first)
    ensures Shrunk(ram0, free0, ram2, free2, root, first)
  {
  }

  lemma ShrunkNone(ram: Ram, free: set<nat>, root: nat, first: nat)
    requires SpaceOk(ram, free, root, first)
    ensures Shrunk(ram, free, ram, free, root, first)
  {
  }

  lemma AllUnmapped(view: View, size: nat)
    requires EndsAt(view, size) && size <= UART_0 && size % 4096 == 0 && forall v :: v in view ==> UserVpn(v)
    ensures ViewWithout(ImageGone(view, size), STACK_VPN, STACK_VPN + 1) == map[]
  {
  }

  ghost function ImageGone(view: View, size: nat): View {
    if size > USER_BASE then ViewWithout(view, 1, size / 4096) else view
  }

  lemma UserRange(size: nat)
    requires USER_BASE < size <= UART_0 && size % 4096 == 0
    ensures size - USER_BASE < 0x1_0000_0000 && (size - USER_BASE) % 4096 == 0
    ensures EndPage(USER_BASE, size - USER_BASE) == size / 4096
    ensures forall v :: 1 <= v < size / 4096 ==> UserVpn(v)
  {
  }

  lemma StackRange()
    ensures (USER_STACK_TOP - 4096) / 4096 == STACK_VPN && (USER_STACK_TOP - 4096) % 4096 == 0
    ensures EndPage(USER_STACK_TOP - 4096, 4096) == STACK_VPN + 1
  {
  }

  /** The image part of uvmfree. */
  method UnmapImage(m: Machine, root: nat, size: nat)
    requires m.Valid() && SpaceOk(m.ram, m.Free(), root, m.first)
    requires size % 4096 == 0 && size <= UART_0
    modifies m, m.bitmap
    ensures m.Valid()
    ensures Shrunk(old(m.ram), old(m.Free()), m.ram, m.Free(), root, m.first)
    ensures UserView(m.ram, root) == ImageGone(old(UserView(m.ram, root)), size)
  {
    if size > USER_BASE {
      UserRange(size);
      UnmapUser(m, root, USER_BASE, size - USER_BASE);
    } else {
      ShrunkNone(m.ram, m.Free(), root, m.first);
    }
  }

  method UnmapStack(m: Machine, root: nat)
    requires m.Valid() && SpaceOk(m.ram, m.Free(), root, m.first)
    modifies m, m.bitmap
    ensures m.Valid()
    ensures Shrunk(old(m.ram), old(m.Free()), m.ram, m.Free(), root, m.first)
    ensures UserView(m.ram, root) == ViewWithout(old(UserView(m.ram, root)), STACK_VPN, STACK_VPN + 1)
  {
    StackRange();
    UnmapUser(m, root, USER_STACK_TOP - 4096, 4096);
  }

  /** uvmfree: exactly the pages of the space become free. */
  method UvmFree(m: Machine, root: nat, size: nat)
    requires m.Valid() && SpaceOk(m.ram, m.Free(), root, m.first)
    requires size % 4096 == 0 && size <= UART_0 && EndsAt(UserView(m.ram, root), size)
    modifies m, m.bitmap
    ensures m.Valid()
    ensures m.Free() == old(m.Free() + SpacePages(m.ram, root))
    ensures SameOutside(old(m.ram), m.ram, old(SpacePages(m.ram, root)))
  {
    ghost var ram0, free0 := m.ram, m.Free();
    AllUnmapped(UserView(m.ram, root), size);
    UnmapImage(m, root, size);
    ghost var ram1, free1 := m.ram, m.Free();
    UnmapStack(m, root);
    ShrunkTrans(ram0, free0, ram1, free1, m.ram, m.Free(), root, m.first);
    NothingLeft(m.ram, m.Free(), root, m.first);
    FreeWalk(m, root);
  }
}

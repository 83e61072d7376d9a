/** uvmcopy of kernel/proc.c: a child's address space. */
module CopySpace {
  import opened Layout
  import opened PageTable
  import opened Memory
  import opened Space
  import opened UserSpace
  import opened PageCount
  import opened Grow
  import opened UserCopy

  /** The pages of a view below page n. */
  ghost function Below(view: View, n: nat): View {
    map v | v in view && v < n :: view[v]
  }

  /** Two spaces that share no page with each other, nor with free memory. */
  ghost predicate Apart(ram: Ram, free: set<nat>, parent: nat, child: nat, first: nat) {
    && SpaceOk(ram, free, parent, first) && SpaceOk(ram, free, child, first)
    && SpacePages(ram, parent) !! SpacePages(ram, child)
  }

  lemma SpaceDisjoint(ram: Ram, free: set<nat>, root: nat, first: nat)
    requires SpaceOk(ram, free, root, first)
    ensures SpacePages(ram, root) !! free
  {
    OwnedNoTable(Flat(ram, root), Tables(ram, root), free, first);
  }

  /** Growing one space leaves the other alone, and the two stay apart. */
  lemma ApartKept(ram: Ram, free: set<nat>, ram': Ram, free': set<nat>, parent: nat, child: nat, first: nat)
    requires Apart(ram, free, parent, child, first) && Kept(ram, free, ram', free', child, first)
    requires AllRam(ram) && AllRam(ram') && RAM_FIRST <= first
    ensures Apart(ram', free', parent, child, first)
    ensures UserView(ram', parent) == UserView(ram, parent) && SpacePages(ram', parent) == SpacePages(ram, parent)
  {
    SpaceDisjoint(ram, free, parent, first);
    SpaceFrame(ram, free, ram', free', parent, first, free + SpacePages(ram, child));
  }

  /** Isolation: once two spaces are apart, no write through one is visible through the other. */
  lemma Isolation(ram: Ram, ram': Ram, free: set<nat>, parent: nat, child: nat, first: nat)
    requires Apart(ram, free, parent, child, first) && Overwritten(ram, ram', free, child, first)
    requires AllRam(ram) && AllRam(ram') && RAM_FIRST <= first
    ensures Apart(ram', free, parent, child, first) && UserView(ram', parent) == UserView(ram, parent)
  {
    SpaceDisjoint(ram, free, parent, first);
    SpaceFrame(ram, free, ram', free, parent, first, Owned(Flat(ram, child)));
  }

  /** The child has the parent's pages below page n. */
  ghost predicate Copied(ram0: Ram, free0: set<nat>, ram: Ram, free: set<nat>, parent: nat, child: nat, first: nat,
                         n: nat)
    requires parent in ram0 && child in ram0
  {
    && Kept(ram0, free0, ram, free, child, first) && UserView(ram, child) == Below(UserView(ram0, parent), n)
    && TableSet(ram, child) == TableSet(ram0, child) + RegionsOf(Below(UserView(ram0, parent), n))
  }

  // ---------------------------------------------------------------- how many pages

  /** The first-level indices of the pages of a view. */
  ghost function RegionsOf(view: View): set<nat> {
    set v | v in view :: v / 1024
  }

  lemma RegionsInsert(view: View, v: nat, page: UserPage)
    ensures RegionsOf(view[v := page]) == RegionsOf(view) + {v / 1024}
  {
    assert v in view[v := page];
    assert forall w :: w in view ==> w in view[v := page];
  }

  /** A copy of the view, with the tables it needs beyond those of the child, is more than there is. */
  ghost predicate CopyShort(ram: Ram, free: set<nat>, child: nat, view: View)
    requires child in ram
  {
    |free| + |TableSet(ram, child)| < |view| + |TableSet(ram, child) + RegionsOf(view)|
  }

  /** A copy of the view, with the tables it needs, was taken from the free pages. */
  ghost predicate CopyCost(ram: Ram, free: set<nat>, free': set<nat>, child: nat, view: View)
    requires child in ram
  {
    |free| + |TableSet(ram, child)| == |free'| + |view| + |TableSet(ram, child) + RegionsOf(view)|
  }

  /** If page v of the view cannot be had after part of it was copied, the view was too much to ask for. */
  lemma CopyShortAt(ram0: Ram, free0: set<nat>, ram1: Ram, free1: set<nat>, child: nat, first: nat, view: View,
                    part: View, v: nat)
    requires SpaceOk(ram0, free0, child, first) && AllRam(ram0) && AllRam(ram1) && RAM_FIRST <= first
    requires Kept(ram0, free0, ram1, free1, child, first) && UserView(ram0, child) == map[]
    requires UserView(ram1, child) == part
    requires TableSet(ram1, child) == TableSet(ram0, child) + RegionsOf(part) && TooFew(ram1, free1, child, v)
    requires part.Keys <= view.Keys && v in view && v !in part
    ensures CopyShort(ram0, free0, child, view)
  {
    KeptCount(ram0, free0, ram1, free1, child, first);
    PartCount(TableSet(ram0, child), view, part, v);
  }

  lemma PartCount(t0: set<nat>, view: View, part: View, v: nat)
    requires part.Keys <= view.Keys && v in view && v !in part
    ensures var t1 := t0 + RegionsOf(part);
            |part| + 1 + |t1| + (if v / 1024 in t1 then 0 else 1) <= |view| + |t0 + RegionsOf(view)|
  {
    OneMore(part.Keys, v);
    SubsetCount(part.Keys + {v}, view.Keys);
    PartRegions(view, part, v);
    AtMostOneMore(t0 + RegionsOf(part), t0 + RegionsOf(view), v / 1024);
  }

  lemma PartRegions(view: View, part: View, v: nat)
    requires part.Keys <= view.Keys && v in view
    ensures RegionsOf(part) <= RegionsOf(view) && v / 1024 in RegionsOf(view)
  {
    forall w | w in part
      ensures w / 1024 in RegionsOf(view)
    {
      assert w in view.Keys;
    }
  }

  lemma AtMostOneMore(a: set<nat>, b: set<nat>, x: nat)
    requires a <= b && x in b
    ensures |a| + (if x in a then 0 else 1) <= |b|
  {
    if x in a {
      SubsetCount(a, b);
    } else {
      OneMore(a, x);
      SubsetCount(a + {x}, b);
    }
  }

  lemma CopyCount(ram0: Ram, free0: set<nat>, ram1: Ram, free1: set<nat>, child: nat, first: nat, view: View)
    requires SpaceOk(ram0, free0, child, first) && AllRam(ram0) && AllRam(ram1) && RAM_FIRST <= first
    requires Kept(ram0, free0, ram1, free1, child, first) && UserView(ram0, child) == map[]
    requires UserView(ram1, child) == view
    requires TableSet(ram1, child) == TableSet(ram0, child) + RegionsOf(view)
    ensures CopyCost(ram0, free0, free1, child, view) && !CopyShort(ram0, free0, child, view)
  {
    KeptCount(ram0, free0, ram1, free1, child, first);
  }

  /** The leaf entry of v in a space, as find_pte without alloc gives it; 0 if there is none. */
  function LeafEntry(ram: Ram, root: nat, v: nat): nat
    requires root in ram && v < VPNS
  {
    var t := TableFor(ram, root, v);
    if t == 0 || t !in ram then 0
    else var e := Word(ram[t], v % 1024); if IsValid(e) then e else 0
  }

  lemma UserFlag(e: nat)
    ensures HasBit(PteFlags(e), PTE_U) == HasBit(e, PTE_U) && PteFlags(e) < 1024
    ensures IsValid(e) ==> WithValid(PteFlags(e)) == PteFlags(e)
  {
    var q, r := e / 1024, e % 1024;
    assert e / 2 == q * 512 + r / 2;
    assert e / 16 == e / 2 / 8 && r / 16 == r / 2 / 8;
    HalvedBits(q, r / 2);
  }

  lemma LeafEntryIs(ram: Ram, free: set<nat>, root: nat, first: nat, v: nat)
    requires SpaceOk(ram, free, root, first) && AllRam(ram) && RAM_FIRST <= first && v < VPNS && UserVpn(v)
    ensures var e, view := LeafEntry(ram, root, v), UserView(ram, root);
            && (e == 0 <==> v !in view)
            && (e != 0 ==> InRam(PteToPa(e) / 4096) && PteToPa(e) % 4096 == 0
                           && view[v] == UserPage(WithValid(PteFlags(e)), ram[PteToPa(e) / 4096])
                           && PteFlags(e) < 1024 && HasBit(PteFlags(e), PTE_U))
  {
    var flat := Flat(ram, root);
    TableForIs(ram, root, v);
    ViewKeys(flat, Tables(ram, root), free, first, ram);
    if v in flat {
      UserFlag(flat[v]);
      AddressOf(flat[v]);
      assert InRam(Ppn(flat[v]));
    }
  }

  lemma NotInFlat(ram: Ram, free: set<nat>, root: nat, first: nat, v: nat)
    requires SpaceOk(ram, free, root, first) && AllRam(ram) && RAM_FIRST <= first && UserVpn(v)
    requires v !in UserView(ram, root)
    ensures v !in Flat(ram, root)
  {
    ViewKeys(Flat(ram, root), Tables(ram, root), free, first, ram);
  }

  lemma BelowNext(view: View, v: nat, v': nat)
    requires v' == v + 1
    ensures Below(view, v') == if v in view then Below(view, v)[v := view[v]] else Below(view, v)
    ensures v in view ==> RegionsOf(Below(view, v')) == RegionsOf(Below(view, v)) + {v / 1024}
  {
    if v in view {
      RegionsInsert(Below(view, v), v, view[v]);
    }
  }

  /** One more page copied. */
  lemma CopiedOne(ram0: Ram, free0: set<nat>, ram1: Ram, free1: set<nat>, ram2: Ram, free2: set<nat>,
                  parent: nat, child: nat, first: nat, v: nat, v': nat)
    requires parent in ram0 && child in ram0 && Copied(ram0, free0, ram1, free1, parent, child, first, v) && v' == v + 1
    requires v in UserView(ram0, parent) && Kept(ram1, free1, ram2, free2, child, first)
    requires UserView(ram2, child) == UserView(ram1, child)[v := UserView(ram0, parent)[v]]
    requires TableSet(ram2, child) == TableSet(ram1, child) + {v / 1024}
    ensures Copied(ram0, free0, ram2, free2, parent, child, first, v')
  {
    KeptTrans(ram0, free0, ram1, free1, ram2, free2, child, first);
    BelowNext(UserView(ram0, parent), v, v');
  }

  /** No page copied. */
  lemma CopiedStays(ram0: Ram, free0: set<nat>, ram1: Ram, free1: set<nat>, ram2: Ram, free2: set<nat>,
                    parent: nat, child: nat, first: nat, v: nat)
    requires parent in ram0 && child in ram0 && Copied(ram0, free0, ram1, free1, parent, child, first, v)
    requires Kept(ram1, free1, ram2, free2, child, first) && UserView(ram2, child) == UserView(ram1, child)
    requires TableSet(ram2, child) == TableSet(ram1, child)
    ensures Copied(ram0, free0, ram2, free2, parent, child, first, v)
  {
    KeptTrans(ram0, free0, ram1, free1, ram2, free2, child, first);
  }

  /** kalloc, memmove and mappage of one page of the parent: uvmcopy's step. */
  method CopyPage(m: Machine, parent: nat, child: nat, v: nat, e: nat) returns (ok: bool)
    requires m.Valid() && Apart(m.ram, m.Free(), parent, child, m.first) && v < VPNS && UserVpn(v)
    requires e == LeafEntry(m.ram, parent, v) && e != 0 && v !in UserView(m.ram, child)
    modifies m, m.bitmap
    ensures m.Valid()
    ensures Kept(old(m.ram), old(m.Free()), m.ram, m.Free(), child, m.first)
    ensures v in old(UserView(m.ram, parent))
    ensures ok ==> UserView(m.ram, child) == old(UserView(m.ram, child))[v := old(UserView(m.ram, parent))[v]]
    ensures ok ==> TableSet(m.ram, child) == old(TableSet(m.ram, child)) + {v / 1024}
    ensures !ok ==> UserView(m.ram, child) == old(UserView(m.ram, child))
                    && TableSet(m.ram, child) == old(TableSet(m.ram, child))
    ensures !ok ==> TooFew(old(m.ram), old(m.Free()), child, v)
  {
    LeafEntryIs(m.ram, m.Free(), parent, m.first, v);
    NotInFlat(m.ram, m.Free(), child, m.first, v);
    ok := MapFresh(m, child, v, m.ram[PteToPa(e) / 4096], PteFlags(e));
  }

  /** One round of uvmcopy's loop. */
  method CopyNext(m: Machine, parent: nat, child: nat, v: nat, ghost v': nat, ghost ram0: Ram, ghost free0: set<nat>)
    returns (ok: bool)
    requires m.Valid() && AllRam(ram0) && Apart(ram0, free0, parent, child, m.first) && UserView(ram0, child) == map[]
    requires v' == v + 1 && v < VPNS && UserVpn(v) && Copied(ram0, free0, m.ram, m.Free(), parent, child, m.first, v)
    modifies m, m.bitmap
    ensures m.Valid()
    ensures ok ==> Copied(ram0, free0, m.ram, m.Free(), parent, child, m.first, v')
    ensures !ok ==> Copied(ram0, free0, m.ram, m.Free(), parent, child, m.first, v)
    ensures !ok ==> CopyShort(ram0, free0, child, UserView(ram0, parent))
  {
    ghost var ram1, free1 := m.ram, m.Free();
    ApartKept(ram0, free0, ram1, free1, parent, child, m.first);
    LeafEntryIs(ram1, free1, parent, m.first, v);
    var e := LeafEntry(m.ram, parent, v);
    if e == 0 {
      BelowNext(UserView(ram0, parent), v, v');
      return true;
    }
    ok := CopyPage(m, parent, child, v, e);
    if ok {
      CopiedOne(ram0, free0, ram1, free1, m.ram, m.Free(), parent, child, m.first, v, v');
    } else {
      CopiedStays(ram0, free0, ram1, free1, m.ram, m.Free(), parent, child, m.first, v);
      ghost var view := UserView(ram0, parent);
      CopyShortAt(ram0, free0, ram1, free1, child, m.first, view, Below(view, v), v);
    }
  }

  lemma CopiedNone(ram: Ram, free: set<nat>, parent: nat, child: nat, first: nat)
    requires Apart(ram, free, parent, child, first) && UserView(ram, child) == map[]
    ensures Copied(ram, free, ram, free, parent, child, first, 1)
  {
    assert Below(UserView(ram, parent), 1) == map[];
  }

  /** uvmcopy's loop over the image, by page number. */
  method CopyImage(m: Machine, parent: nat, child: nat, sz: nat) returns (ok: bool, v: nat)
    requires m.Valid() && Apart(m.ram, m.Free(), parent, child, m.first) && UserView(m.ram, child) == map[]
    requires sz <= UART_0
    modifies m, m.bitmap
    ensures m.Valid()
    ensures 1 <= v && (v == 1 || (v - 1) * 4096 < sz) && (ok ==> v * 4096 >= sz)
    ensures Copied(old(m.ram), old(m.Free()), m.ram, m.Free(), parent, child, m.first, v)
    ensures !ok ==> CopyShort(old(m.ram), old(m.Free()), child, old(UserView(m.ram, parent)))
  {
    ghost var ram0, free0 := m.ram, m.Free();
    CopiedNone(ram0, free0, parent, child, m.first);
    v := 1;
    while v * 4096 < sz
      invariant 1 <= v && (v == 1 || (v - 1) * 4096 < sz)
      invariant m.Valid()
      invariant Copied(ram0, free0, m.ram, m.Free(), parent, child, m.first, v)
      decreases sz - v * 4096
    {
      var v' := v + 1;
      ok := CopyNext(m, parent, child, v, v', ram0, free0);
      if !ok {
        return;
      }
      v := v';
    }
    ok := true;
  }

  /** Child pages so far: those of the parent's image below page v, and the stack if `stack`. */
  ghost function CopiedView(view: View, v: nat, stack: bool): View {
    map w | w in view && (w < v || (stack && w == STACK_VPN)) :: view[w]
  }

  lemma WithStack(view: View, v: nat)
    requires v <= UART_VPN
    ensures STACK_VPN in view ==> CopiedView(view, v, true) == Below(view, v)[STACK_VPN := view[STACK_VPN]]
    ensures CopiedView(view, v, false) == Below(view, v) && STACK_VPN !in Below(view, v)
  {
  }

  lemma WholeView(view: View, v: nat, sz: nat)
    requires EndsAt(view, sz) && v * 4096 >= sz
    ensures CopiedView(view, v, true) == view
  {
  }

  lemma PartView(view: View, v: nat, sz: nat, stack: bool)
    requires 1 <= v && (v == 1 || (v - 1) * 4096 < sz) && forall w :: w in view ==> UserVpn(w)
    ensures EndsAt(CopiedView(view, v, stack), sz) && CopiedView(view, v, false) == Below(view, v)
  {
  }

  /** The stack part of uvmcopy. */
  method CopyStack(m: Machine, parent: nat, child: nat, ghost v: nat, ghost view: View) returns (ok: bool)
    requires m.Valid() && Apart(m.ram, m.Free(), parent, child, m.first) && v <= UART_VPN
    requires view == UserView(m.ram, parent) && UserView(m.ram, child) == Below(view, v)
    modifies m, m.bitmap
    ensures m.Valid()
    ensures ok ==> STACK_VPN in view
    ensures Kept(old(m.ram), old(m.Free()), m.ram, m.Free(), child, m.first)
    ensures UserView(m.ram, child) == CopiedView(view, v, ok)
    ensures ok ==> TableSet(m.ram, child) == old(TableSet(m.ram, child)) + {STACK_VPN / 1024}
    ensures !ok && STACK_VPN in view ==> TooFew(old(m.ram), old(m.Free()), child, STACK_VPN)
  {
    var e := LeafEntry(m.ram, parent, STACK_VPN);
    LeafEntryIs(m.ram, m.Free(), parent, m.first, STACK_VPN);
    WithStack(view, v);
    ApartChild(m.ram, m.Free(), parent, child, m.first);
    ok := false;
    if e != 0 {
      ok := CopyPage(m, parent, child, STACK_VPN, e);
    }
  }

  lemma ApartChild(ram: Ram, free: set<nat>, parent: nat, child: nat, first: nat)
    requires Apart(ram, free, parent, child, first)
    ensures child in ram && Kept(ram, free, ram, free, child, first)
  {
  }

  /** uvmcopy into a fresh space: on success the child sees exactly what the parent sees; it fails only
      if the free pages are fewer than the parent's pages and the tables they need, or the parent has no
      stack, and what was copied by then ends at sz as well. */
  method UvmCopy(m: Machine, parent: nat, child: nat, sz: nat) returns (ok: bool)
    requires m.Valid() && Apart(m.ram, m.Free(), parent, child, m.first) && UserView(m.ram, child) == map[]
    requires sz <= UART_0
    requires EndsAt(UserView(m.ram, parent), sz)
    modifies m, m.bitmap
    ensures m.Valid()
    ensures Kept(old(m.ram), old(m.Free()), m.ram, m.Free(), child, m.first)
    ensures Apart(m.ram, m.Free(), parent, child, m.first) && UserView(m.ram, parent) == old(UserView(m.ram, parent))
    ensures ok ==> UserView(m.ram, child) == old(UserView(m.ram, parent))
    ensures ok ==> CopyCost(old(m.ram), old(m.Free()), m.Free(), child, old(UserView(m.ram, parent)))
    ensures ok <==> STACK_VPN in old(UserView(m.ram, parent))
                    && !CopyShort(old(m.ram), old(m.Free()), child, old(UserView(m.ram, parent)))
    ensures EndsAt(UserView(m.ram, child), sz)
  {
    ghost var ram0, free0, view := m.ram, m.Free(), UserView(m.ram, parent);
    var v;
    ok, v := CopyImage(m, parent, child, sz);
    ghost var ram1, free1 := m.ram, m.Free();
    PartView(view, v, sz, false);
    ApartKept(ram0, free0, ram1, free1, parent, child, m.first);
    if !ok {
      return;
    }
    ok := CopyStack(m, parent, child, v, view);
    KeptTrans(ram0, free0, ram1, free1, m.ram, m.Free(), child, m.first);
    ApartKept(ram0, free0, m.ram, m.Free(), parent, child, m.first);
    PartView(view, v, sz, ok);
    StackAbove(view, v);
    if ok {
      CopyCosts(ram0, free0, ram1, m.ram, m.Free(), child, m.first, view, v, sz);
    } else if STACK_VPN in view {
      CopyShortAt(ram0, free0, ram1, free1, child, m.first, view, Below(view, v), STACK_VPN);
    }
  }

  /** What the copies cost. */
  lemma CopyCosts(ram0: Ram, free0: set<nat>, ram1: Ram, ram2: Ram, free2: set<nat>,
                  child: nat, first: nat, view: View, v: nat, sz: nat)
    requires SpaceOk(ram0, free0, child, first) && AllRam(ram0) && AllRam(ram2) && RAM_FIRST <= first
    requires UserView(ram0, child) == map[] && EndsAt(view, sz) && v * 4096 >= sz && STACK_VPN in view
    requires child in ram1 && v <= UART_VPN
    requires Kept(ram0, free0, ram2, free2, child, first) && UserView(ram2, child) == CopiedView(view, v, true)
    requires TableSet(ram1, child) == TableSet(ram0, child) + RegionsOf(Below(view, v))
    requires TableSet(ram2, child) == TableSet(ram1, child) + {STACK_VPN / 1024}
    ensures UserView(ram2, child) == view && CopyCost(ram0, free0, free2, child, view)
    ensures !CopyShort(ram0, free0, child, view)
  {
    WholeView(view, v, sz);
    WithStack(view, v);
    RegionsInsert(Below(view, v), STACK_VPN, view[STACK_VPN]);
    CopyCount(ram0, free0, ram2, free2, child, first, view);
  }

  lemma StackAbove(view: View, v: nat)
    requires v <= UART_VPN
    ensures STACK_VPN !in Below(view, v) && Below(view, v).Keys <= view.Keys
  {
  }
}

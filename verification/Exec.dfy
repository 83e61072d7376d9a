/** kexec of kernel/exec.c: build the new address space on the side, then commit. */
module Exec {
  import opened Layout
  import opened PageTable
  import opened Memory
  import opened UserSpace
  import opened PageCount
  import opened Grow
  import opened InitSpace
  import opened CopySpace
  import opened ProcMemory
  import opened Elf
  import opened Loader
  import opened Args
  import opened ArgStack

  const STACK_FLAGS: nat := 23  // PTE_V | PTE_R | PTE_W | PTE_U

  /** A space built from formerly free pages only, next to everything else. */
  ghost predicate Aside(ram0: Ram, free0: set<nat>, ram: Ram, free: set<nat>, root: nat, first: nat) {
    && SpaceOk(ram, free, root, first)
    && free + SpacePages(ram, root) == free0
    && SameOutside(ram0, ram, free0)
  }

  lemma AsideKept(ram0: Ram, free0: set<nat>, ram1: Ram, free1: set<nat>, ram2: Ram, free2: set<nat>, root: nat,
                  first: nat)
    requires Aside(ram0, free0, ram1, free1, root, first) && Kept(ram1, free1, ram2, free2, root, first)
    ensures Aside(ram0, free0, ram2, free2, root, first)
  {
  }

  /** What a program finds in its new address space: its segments, exactly the pages of its image and
      one stack page, and its arguments on the stack. */
  ghost predicate ImageView(view: View, img: Image, argv: seq<Bytes>, sz: nat, o: nat, offs: seq<int>) {
    && Loaded(view, img, Phnum(img), sz)
    && (forall v :: v in view <==> (1 <= v && v * 4096 < sz) || v == STACK_VPN)
    && STACK_VPN in view && view[STACK_VPN].flags == STACK_FLAGS
    && ArgvOn(StackPage(view), o, STACK_BASE, offs, argv)
  }

  /** The stack page lies above every segment. */
  lemma LoadedWithStack(view: View, img: Image, n: nat, sz: nat, page: UserPage)
    requires Loaded(view, img, n, sz) && sz <= UART_0
    ensures Loaded(view[STACK_VPN := page], img, n, sz)
  {
    var view' := view[STACK_VPN := page];
    forall i | 0 <= i < n && Loads(SegmentOf(img, i))
      ensures SegmentLoaded(view', img, SegmentOf(img, i), sz)
    {
      SegmentWithStack(view, img, SegmentOf(img, i), sz, page);
    }
  }

  lemma SegmentWithStack(view: View, img: Image, h: Segment, sz: nat, page: UserPage)
    requires SegmentLoaded(view, img, h, sz) && sz <= UART_0
    ensures SegmentLoaded(view[STACK_VPN := page], img, h, sz)
  {
    var view' := view[STACK_VPN := page];
    forall k | 0 <= k < h.memsz
      ensures ByteLoaded(view', img, h, k)
    {
      assert ByteLoaded(view, img, h, k);
      assert (h.va + k) / 4096 < STACK_VPN;
    }
  }

  lemma ImageReady(view0: View, view1: View, view2: View, img: Image, argv: seq<Bytes>, sz: nat, o: nat, offs: seq<int>)
    requires Loaded(view0, img, Phnum(img), sz) && sz <= UART_0 && ImageIs(view0, sz)
    requires view1 == view0[STACK_VPN := UserPage(STACK_FLAGS, ZERO_PAGE)] && ArgsPlaced(view1, view2, o, offs, argv)
    ensures ImageView(view2, img, argv, sz, o, offs)
  {
    assert view2 == view0[STACK_VPN := view2[STACK_VPN]];
    LoadedWithStack(view0, img, Phnum(img), sz, view2[STACK_VPN]);
  }

  lemma ImageEnds(view: View, sz: nat)
    requires forall v :: v in view ==> (1 <= v && v * 4096 < sz) || v == STACK_VPN
    ensures EndsAt(view, sz)
  {
  }

  /** The label bad: of kexec: every page of the unfinished space becomes free again. */
  method Discard(m: Machine, root: nat, sz: nat, ghost ram0: Ram, ghost free0: set<nat>)
    requires m.Valid() && Aside(ram0, free0, m.ram, m.Free(), root, m.first)
    requires sz % 4096 == 0 && sz <= UART_0 && EndsAt(UserView(m.ram, root), sz)
    modifies m, m.bitmap
    ensures m.Valid() && m.Free() == free0 && SameOutside(ram0, m.ram, free0)
  {
    ghost var ram1 := m.ram;
    UvmFree(m, root, sz);
    AsideGone(ram0, ram1, m.ram, free0, SpacePages(ram1, root));
  }

  lemma AsideGone(ram0: Ram, ram1: Ram, ram2: Ram, free0: set<nat>, pages: set<nat>)
    requires SameOutside(ram0, ram1, free0) && SameOutside(ram1, ram2, pages) && pages <= free0
    ensures SameOutside(ram0, ram2, free0)
  {
  }

  /** Page b, which is not free, holds the argument strings. */
  ghost predicate Buffered(ram: Ram, free: set<nat>, b: nat, starts: seq<nat>, argv: seq<Bytes>, used: nat) {
    b in ram && b !in free && Packed(ram[b], starts, argv, used)
  }

  /** The strings survive everything exec does with formerly free pages. */
  lemma BufferAside(ram0: Ram, free0: set<nat>, ram: Ram, free: set<nat>, root: nat, first: nat, b: nat)
    requires Aside(ram0, free0, ram, free, root, first) && b in ram0 && b !in free0
    ensures b in ram && ram[b] == ram0[b] && b !in free + SpacePages(ram, root)
  {
  }

  /** The arguments, in a space that holds the loaded image (view0) and an empty stack page. */
  method PlaceArgs(m: Machine, root: nat, b: nat, starts: seq<nat>, ghost argv: seq<Bytes>, ghost used: nat,
                   ghost img: Image, ghost sz: nat, ghost ram0: Ram, ghost free0: set<nat>, ghost view0: View)
    returns (ok: bool, sp: nat, ghost offs: seq<int>, ghost o: nat, ghost view2: View)
    requires m.Valid() && Aside(ram0, free0, m.ram, m.Free(), root, m.first) && sz % 4096 == 0 && sz <= UART_0
    requires ImageIs(view0, sz) && Loaded(view0, img, Phnum(img), sz)
    requires UserView(m.ram, root) == view0[STACK_VPN := UserPage(STACK_FLAGS, ZERO_PAGE)]
    requires Buffered(ram0, free0, b, starts, argv, used)
    modifies m`ram
    ensures m.Valid() && (ok <==> Fits(argv))
    ensures Aside(ram0, free0, m.ram, m.Free(), root, m.first) && UserView(m.ram, root) == view2
    ensures ok ==> sp == STACK_BASE + 4 * o && ImageView(view2, img, argv, sz, o, offs)
    ensures !ok ==> EndsAt(view2, sz)
  {
    ghost var ram2, free2, view1 := m.ram, m.Free(), UserView(m.ram, root);
    EmptyStack(view0, view1);
    BufferAside(ram0, free0, ram2, free2, root, m.first, b);
    ok, sp, offs, o := PushArgs(m, root, b, starts, argv, used, ram2, free2);
    view2 := UserView(m.ram, root);
    AsideKept(ram0, free0, ram2, free2, m.ram, free2, root, m.first);
    if ok {
      ImageReady(view0, view1, view2, img, argv, sz, o, offs);
    } else {
      StackEnds(view0, view1, view2, sz);
    }
  }

  lemma EmptyStack(view0: View, view1: View)
    requires view1 == view0[STACK_VPN := UserPage(STACK_FLAGS, ZERO_PAGE)]
    ensures STACK_VPN in view1 && HasBit(view1[STACK_VPN].flags, PTE_W)
  {
  }

  lemma StackEnds(view0: View, view1: View, view2: View, sz: nat)
    requires ImageIs(view0, sz) && view1 == view0[STACK_VPN := UserPage(STACK_FLAGS, ZERO_PAGE)]
    requires view2.Keys == view1.Keys
    ensures EndsAt(view2, sz)
  {
    forall v | v in view2
      ensures v * 4096 < sz || v == STACK_VPN
    {
      assert v in view2.Keys;
      assert v in view1;
    }
  }

  /** The stack page and the arguments, in a space that holds the loaded image. */
  method AddStack(m: Machine, root: nat, b: nat, starts: seq<nat>, sz: nat, ghost argv: seq<Bytes>, ghost used: nat,
                  ghost img: Image, ghost ram0: Ram, ghost free0: set<nat>)
    returns (ok: bool, sp: nat, ghost offs: seq<int>, ghost o: nat)
    requires m.Valid() && Aside(ram0, free0, m.ram, m.Free(), root, m.first)
    requires sz % 4096 == 0 && sz <= UART_0 && ImageIs(UserView(m.ram, root), sz)
    requires Loaded(UserView(m.ram, root), img, Phnum(img), sz)
    requires Buffered(ram0, free0, b, starts, argv, used)
    modifies m, m.bitmap
    ensures m.Valid() && (ok <==> Fits(argv) && !TooFew(old(m.ram), old(m.Free()), root, STACK_VPN))
    ensures ok ==> Aside(ram0, free0, m.ram, m.Free(), root, m.first)
    ensures ok ==> sp == STACK_BASE + 4 * o && ImageView(UserView(m.ram, root), img, argv, sz, o, offs)
    ensures !ok ==> m.Free() == free0 && SameOutside(ram0, m.ram, free0)
  {
    ghost var ram1, free1, view0 := m.ram, m.Free(), UserView(m.ram, root);
    StackUnmapped(ram1, free1, root, m.first, sz);
    ok := MapFresh(m, root, STACK_VPN, ZERO_PAGE, 22);
    AsideKept(ram0, free0, ram1, free1, m.ram, m.Free(), root, m.first);
    if ok {
      ghost var view2;
      ok, sp, offs, o, view2 := PlaceArgs(m, root, b, starts, argv, used, img, sz, ram0, free0, view0);
    } else {
      sp, offs, o := 0, [], 0;
      ImageEnds(view0, sz);
    }
    if !ok {
      Discard(m, root, sz, ram0, free0);
    }
  }

  lemma StackUnmapped(ram: Ram, free: set<nat>, root: nat, first: nat, sz: nat)
    requires SpaceOk(ram, free, root, first) && AllRam(ram) && RAM_FIRST <= first && ImageIs(UserView(ram, root), sz)
    requires sz <= UART_0
    ensures STACK_VPN !in Flat(ram, root)
  {
    NotInFlat(ram, free, root, first, STACK_VPN);
  }

  // ---------------------------------------------------------------- how many pages

  /** Second-level tables for the user pages 1 <= v < end. */
  function TablesFor(end: nat): nat {
    if end <= 1 then 0 else (end - 1) / 1024 + 1
  }

  /** What exec takes for an image: a fresh table, the image's pages and their tables, a stack page and its table. */
  ghost function PagesNeeded(img: Image): int
    requires Accepted(img)
  {
    FRESH_PAGES + (ImageEnd(img) - 1) + TablesFor(ImageEnd(img)) + 2
  }

  lemma RegionsCount(end: nat)
    ensures |Regions(1, end)| == TablesFor(end)
  {
    var n := TablesFor(end);
    forall i | i in PagesIn(0, n)
      ensures i in Regions(1, end)
    {
      var v := if i == 0 then 1 else i * 1024;
      assert v in PagesIn(1, end) && v / 1024 == i;
    }
    assert Regions(1, end) == PagesIn(0, n);
    PagesInCount(0, n);
  }

  /** The image shares no table with the kernel's mappings, nor with the stack. */
  lemma ImageTables(end: nat, t: set<nat>)
    requires end <= UART_VPN && t == KernelTables() + Regions(1, end)
    ensures |t| == KERNEL_TABLES + TablesFor(end) && STACK_VPN / 1024 !in t
  {
    assert forall v :: v in PagesIn(1, end) ==> v / 1024 < 64;
    DisjointCount(KernelTables(), Regions(1, end));
    KernelTableCount();
    RegionsCount(end);
  }

  lemma ImageEndBelow(img: Image)
    requires Accepted(img)
    ensures 1 <= ImageEnd(img) <= UART_VPN
  {
    EndGrows(img, 0, Phnum(img), USER_BASE);
    EndBelow(EndFrom(img, 0, USER_BASE));
    PagesOrder(USER_BASE, EndFrom(img, 0, USER_BASE));
  }

  /** Too little memory for the image alone. */
  lemma ImageTooBig(ram: Ram, free: set<nat>, root: nat, img: Image, free0: set<nat>)
    requires root in ram && Accepted(img) && TableSet(ram, root) == KernelTables() && |free| == |free0| - FRESH_PAGES
    requires Short(ram, free, root, 1, ImageEnd(img))
    ensures |free0| < PagesNeeded(img)
  {
    ImageEndBelow(img);
    ImageTables(ImageEnd(img), KernelTables() + Regions(1, ImageEnd(img)));
    KernelTableCount();
  }

  /** What is left for the stack page once the image is loaded. */
  lemma StackCost(ram1: Ram, free1: set<nat>, ram2: Ram, free2: set<nat>, root: nat, first: nat, img: Image,
                  size: nat, free0: set<nat>)
    requires SpaceOk(ram1, free1, root, first) && AllRam(ram1) && AllRam(ram2) && RAM_FIRST <= first
    requires UserView(ram1, root) == map[] && Kept(ram1, free1, ram2, free2, root, first)
    requires ImageIs(UserView(ram2, root), size)
    requires Accepted(img) && TableSet(ram1, root) == KernelTables() && |free1| == |free0| - FRESH_PAGES
    requires size == PageUp(EndFrom(img, 0, USER_BASE))
    requires TableSet(ram2, root) == KernelTables() + Regions(1, ImageEnd(img))
    ensures TooFew(ram2, free2, root, STACK_VPN) <==> |free0| < PagesNeeded(img)
  {
    ImageEndBelow(img);
    EndGrows(img, 0, Phnum(img), USER_BASE);
    WholeEnd(EndFrom(img, 0, USER_BASE), size);
    ImageCost(ram1, free1, ram2, free2, root, first, size);
    ImageTables(ImageEnd(img), TableSet(ram2, root));
    KernelTableCount();
  }

  lemma WholeEnd(end: nat, size: nat)
    requires size == PageUp(end)
    ensures PagesTo(size) == PagesTo(end) && end <= size
  {
  }

  /** Everything kexec does before it commits: root is 0, and every page free again, exactly if the image
      or the arguments are not acceptable or the free pages are fewer than the image needs. */
  method BuildImage(m: Machine, tramp: nat, img: Image, b: nat, starts: seq<nat>, ghost argv: seq<Bytes>,
                    ghost used: nat)
    returns (root: nat, entry: nat, sz: nat, sp: nat, ghost offs: seq<int>, ghost o: nat)
    requires m.Valid() && RAM_FIRST < tramp && tramp + 1 < RAM_END && |img.bytes| <= 0x800_0000
    requires Buffered(m.ram, m.Free(), b, starts, argv, used)
    modifies m, m.bitmap
    ensures m.Valid()
    ensures root != 0 <==> Accepted(img) && Fits(argv) && |old(m.Free())| >= PagesNeeded(img)
    ensures root == 0 ==> m.Free() == old(m.Free()) && SameOutside(old(m.ram), m.ram, old(m.Free()))
    ensures root != 0 ==> Aside(old(m.ram), old(m.Free()), m.ram, m.Free(), root, m.first)
    ensures root != 0 ==> entry == Entry(img) && sz % 4096 == 0 && sz <= UART_0 && sp == STACK_BASE + 4 * o
    ensures root != 0 ==> ImageView(UserView(m.ram, root), img, argv, sz, o, offs)
  {
    ghost var ram0, free0 := m.ram, m.Free();
    entry, sz, sp, offs, o := 0, 0, 0, [], 0;
    root := InitUserPt(m, tramp);
    if root == 0 {
      if Accepted(img) {
        ImageEndBelow(img);
      }
      return;
    }
    ghost var ram1, free1, read := m.ram, m.Free(), 0;
    var ok;
    ok, entry, sz, read := LoadElf(m, root, img);
    AsideKept(ram0, free0, ram1, free1, m.ram, m.Free(), root, m.first);
    if ok {
      StackCost(ram1, free1, m.ram, m.Free(), root, m.first, img, sz, free0);
      ok, sp, offs, o := AddStack(m, root, b, starts, sz, argv, used, img, ram0, free0);
    } else {
      if Accepted(img) {
        ImageTooBig(ram1, free1, root, img, free0);
      }
      ImageEnds(UserView(m.ram, root), sz);
      Discard(m, root, sz, ram0, free0);
    }
    if !ok {
      root := 0;
    }
  }

  // ---------------------------------------------------------------- commit

  /** The caller's trapframe after exec: epc, sp and a1. */
  function ExecFrame(tf: Page, entry: nat, sp: nat): Page
    requires entry < 0x1_0000_0000 && sp < 0x1_0000_0000
  {
    SetWord(SetWord(SetWord(tf, 4, entry), 7, sp), 16, sp)
  }

  /** exec changes the saved pc, sp and a1, and no other register. */
  lemma ExecFrameIs(tf: Page, entry: nat, sp: nat, k: nat)
    requires entry < 0x1_0000_0000 && sp < 0x1_0000_0000 && k < 1024
    ensures Word(ExecFrame(tf, entry, sp), k) == if k == 4 then entry else if k == 7 || k == 16 then sp else Word(tf, k)
  {
    WordAfterSet(tf, 4, entry, k);
    WordAfterSet(SetWord(tf, 4, entry), 7, sp, k);
    WordAfterSet(SetWord(SetWord(tf, 4, entry), 7, sp), 16, sp, k);
  }

  /** Writing a slot's trapframe page leaves the slot's space alone. */
  lemma TrapframeWritten(ram: Ram, free: set<nat>, p: Slot, first: nat, tf: Page)
    requires SlotOk(ram, free, p, first) && AllRam(ram) && RAM_FIRST <= first && p.pt != 0 && p.tf != 0
    ensures var ram' := ram[p.tf := tf];
            && SlotOk(ram', free, p, first) && SlotPages(ram', p) == SlotPages(ram, p)
            && SpacePages(ram', p.pt) == SpacePages(ram, p.pt)
  {
    assert InRam(p.tf);
    SpaceDisjoint(ram, free, p.pt, first);
    SpaceFrame(ram, free, ram[p.tf := tf], free, p.pt, first, {p.tf});
  }

  /** The new space and the caller's slot share nothing. */
  lemma NewSpaceApart(ram0: Ram, free0: set<nat>, ram: Ram, free: set<nat>, p: Slot, root: nat, first: nat)
    requires SlotOk(ram0, free0, p, first) && Aside(ram0, free0, ram, free, root, first)
    requires AllRam(ram0) && AllRam(ram) && RAM_FIRST <= first && p.pt != 0 && p.tf != 0
    ensures SlotOk(ram, free, p, first) && SlotPages(ram, p) == SlotPages(ram0, p) && ram[p.tf] == ram0[p.tf]
    ensures SpacePages(ram, p.pt) == SpacePages(ram0, p.pt) && SpacePages(ram, root) !! SlotPages(ram, p)
    ensures p.tf in SlotPages(ram, p)
  {
    SlotDisjoint(ram0, free0, p, first);
    SlotFrame(ram0, free0, ram, free, p, first, free0);
    SpaceFrame(ram0, free0, ram, free, p.pt, first, free0);
  }

  lemma ReadyToCommit(ram0: Ram, free0: set<nat>, ram: Ram, free: set<nat>, p: Slot, root: nat, first: nat, tf: Page)
    requires SlotOk(ram0, free0, p, first) && Aside(ram0, free0, ram, free, root, first)
    requires AllRam(ram0) && AllRam(ram) && RAM_FIRST <= first && p.pt != 0 && p.tf != 0
    ensures ram[p.tf] == ram0[p.tf]
    ensures var ram' := ram[p.tf := tf];
            && SlotOk(ram', free, p, first) && SlotPages(ram', p) == SlotPages(ram0, p)
            && SpacePages(ram', p.pt) == SpacePages(ram0, p.pt)
            && SpaceOk(ram', free, root, first) && SpacePages(ram', root) == SpacePages(ram, root)
            && UserView(ram', root) == UserView(ram, root) && SpacePages(ram', root) !! SlotPages(ram', p)
  {
    var ram' := ram[p.tf := tf];
    assert InRam(p.tf);
    NewSpaceApart(ram0, free0, ram, free, p, root, first);
    TrapframeWritten(ram, free, p, first, tf);
    SpaceDisjoint(ram, free, root, first);
    SpaceFrame(ram, free, ram', free, root, first, {p.tf});
  }

  /** After uvmfree of the old space, the caller's slot owns the new one instead. */
  lemma Committed(ram: Ram, free: set<nat>, ram': Ram, p: Slot, s: Slot, root: nat, first: nat)
    requires SlotOk(ram, free, p, first) && p.pt != 0 && p.used && s == Slot(true, root, p.kstack, p.tf, s.sz, s.name)
    requires SpaceOk(ram, free, root, first) && SpacePages(ram, root) !! SlotPages(ram, p) && root != 0
    requires s.sz % 4096 == 0 && s.sz <= UART_0 && EndsAt(UserView(ram, root), s.sz)
    requires SameOutside(ram, ram', SpacePages(ram, p.pt)) && AllRam(ram) && AllRam(ram') && RAM_FIRST <= first
    ensures var free' := free + SpacePages(ram, p.pt);
            && SlotOk(ram', free', s, first) && UserView(ram', root) == UserView(ram, root)
            && SpacePages(ram', root) == SpacePages(ram, root)
            && SlotPages(ram', s) == SpacePages(ram, root) + One(p.kstack) + One(p.tf)
            && (p.tf != 0 ==> ram'[p.tf] == ram[p.tf])
  {
    SpaceDisjoint(ram, free, root, first);
    SlotDisjoint(ram, free, p, first);
    SpaceFrame(ram, free, ram', free + SpacePages(ram, p.pt), root, first, SpacePages(ram, p.pt));
    if p.tf != 0 {
      assert InRam(p.tf);
    }
  }

  /** The name a process shows: at most 15 bytes of the path. */
  function NameOf(path: Bytes): (name: Bytes)
    ensures |name| <= 15 && name <= path && (|name| < 15 ==> name == path)
  {
    if |path| <= 15 then path else path[..15]
  }

  /** The caller became the new program: its slot holds the new space, its trapframe the new pc, sp and a1. */
  ghost predicate Replaced(ram: Ram, s: Slot, p: Slot, tf: Page, img: Image, path: Bytes, argv: seq<Bytes>,
                           sp: nat, o: nat, offs: seq<int>) {
    && s == Slot(true, s.pt, p.kstack, p.tf, s.sz, NameOf(path)) && s.pt in ram && s.tf in ram && s.pt != 0
    && sp == STACK_BASE + 4 * o && sp < 0x1_0000_0000
    && ImageView(UserView(ram, s.pt), img, argv, s.sz, o, offs)
    && ram[s.tf] == ExecFrame(tf, Entry(img), sp)
  }

  lemma TradeOfExec(ram0: Ram, free0: set<nat>, ram1: Ram, free1: set<nat>, ram2: Ram, ram3: Ram, p: Slot, s: Slot,
                    first: nat)
    requires s.pt in ram2 && p.pt in ram2 && p.tf in ram2 && p.pt != 0 && p.tf != 0
    requires SameOutside(ram0, ram1, free0) && free1 + SpacePages(ram2, s.pt) == free0
    requires ram2 == ram1[p.tf := ram2[p.tf]] && SlotPages(ram2, p) == SlotPages(ram0, p)
    requires SameOutside(ram2, ram3, SpacePages(ram2, p.pt))
    requires SlotOk(ram3, free1 + SpacePages(ram2, p.pt), s, first)
    requires SlotPages(ram3, s) == SpacePages(ram2, s.pt) + One(p.kstack) + One(p.tf)
    ensures Trade(ram0, free0, p, ram3, free1 + SpacePages(ram2, p.pt), s, first)
  {
    var was, mine, own := SpacePages(ram2, p.pt), SpacePages(ram2, s.pt), One(p.kstack) + One(p.tf);
    assert SlotPages(ram0, p) == was + One(p.kstack) + One(p.tf);
    ExecOutside(ram0, free0, ram1, ram2, ram3, p.tf, was, SlotPages(ram0, p));
    ExecPages(free0, free1, was, mine, own);
  }

  lemma ExecOutside(ram0: Ram, free0: set<nat>, ram1: Ram, ram2: Ram, ram3: Ram, tf: nat, was: set<nat>, own: set<nat>)
    requires SameOutside(ram0, ram1, free0) && tf in ram2 && ram2 == ram1[tf := ram2[tf]]
    requires SameOutside(ram2, ram3, was)
    requires tf in own && was <= own
    ensures SameOutside(ram0, ram3, free0 + own)
  {
  }

  lemma ExecPages(free0: set<nat>, free1: set<nat>, was: set<nat>, mine: set<nat>, own: set<nat>)
    requires free1 + mine == free0
    ensures (free1 + was) + (mine + own) == free0 + (was + own)
  {
  }

  /** The pages `mine`, taken from free memory, replaced the pages `was`, which are free now. */
  ghost predicate Swapped(free: set<nat>, free': set<nat>, mine: set<nat>, was: set<nat>) {
    mine <= free && free' == free - mine + was
  }

  /** From the finished space to the running program. */
  method Commit(m: Machine, p: Slot, path: Bytes, root: nat, entry: nat, sz: nat, sp: nat, ghost ram0: Ram,
                ghost free0: set<nat>)
    returns (s: Slot)
    requires m.Valid() && AllRam(ram0) && SlotOk(ram0, free0, p, m.first) && p.used && p.pt != 0 && p.tf != 0
    requires Aside(ram0, free0, m.ram, m.Free(), root, m.first) && root != 0
    requires sz % 4096 == 0 && sz <= UART_0 && EndsAt(UserView(m.ram, root), sz) && entry < 0x1_0000_0000
    requires sp < 0x1_0000_0000
    modifies m, m.bitmap
    ensures m.Valid() && Trade(ram0, free0, p, m.ram, m.Free(), s, m.first)
    ensures s == Slot(true, root, p.kstack, p.tf, sz, NameOf(path)) && p.tf in ram0 && p.pt in ram0
    ensures root in m.ram && s.tf in m.ram && UserView(m.ram, root) == old(UserView(m.ram, root))
    ensures m.Free() == old(m.Free()) + SpacePages(ram0, p.pt)
    ensures SpacePages(m.ram, root) == old(SpacePages(m.ram, root))
    ensures m.ram[s.tf] == ExecFrame(ram0[p.tf], entry, sp)
  {
    ghost var ram1, free1 := m.ram, m.Free();
    assert InRam(p.tf);
    var frame := ExecFrame(m.ram[p.tf], entry, sp);
    ReadyToCommit(ram0, free0, ram1, free1, p, root, m.first, frame);
    s := Slot(true, root, p.kstack, p.tf, sz, NameOf(path));
    m.ram := m.ram[p.tf := frame];
    ghost var ram2 := m.ram;
    UvmFree(m, p.pt, p.sz);
    Committed(ram2, free1, m.ram, p, s, root, m.first);
    TradeOfExec(ram0, free0, ram1, free1, ram2, m.ram, p, s, m.first);
  }

  /** kexec is all or nothing.  It returns -1 exactly if there is no such program, the image or the arguments
      are not acceptable, or the free pages are fewer than the image needs; then every page that was free is free
      again and nothing but free pages was written, so the caller's table, size, trapframe and memory are as
      they were.  Otherwise the caller is the new program, on pages that were free, and exactly the old
      space's pages became free.  The strings are those at `starts` of the kernel page b, a page that is in use. */
  method KExec(m: Machine, tramp: nat, programs: map<Bytes, Image>, p: Slot, path: Bytes, b: nat, starts: seq<nat>,
               ghost argv: seq<Bytes>, ghost used: nat)
    returns (ret: int, s: Slot, ghost sp: nat, ghost o: nat, ghost offs: seq<int>)
    requires m.Valid() && RAM_FIRST < tramp && tramp + 1 < RAM_END
    requires forall name :: name in programs ==> |programs[name].bytes| <= 0x800_0000
    requires SlotOk(m.ram, m.Free(), p, m.first) && p.used && p.pt != 0 && p.tf != 0
    requires Buffered(m.ram, m.Free(), b, starts, argv, used)
    modifies m, m.bitmap
    ensures m.Valid() && p.tf in old(m.ram) && p.pt in old(m.ram)
    ensures ret != -1 <==> path in programs && Accepted(programs[path]) && Fits(argv)
                           && |old(m.Free())| >= PagesNeeded(programs[path])
    ensures ret == -1 ==> s == p && m.Free() == old(m.Free()) && SameOutside(old(m.ram), m.ram, old(m.Free()))
    ensures ret != -1 ==> ret == |argv| && Trade(old(m.ram), old(m.Free()), p, m.ram, m.Free(), s, m.first)
    ensures ret != -1 ==> Replaced(m.ram, s, p, old(m.ram)[p.tf], programs[path], path, argv, sp, o, offs)
    ensures ret != -1 ==> Swapped(old(m.Free()), m.Free(), SpacePages(m.ram, s.pt), old(SpacePages(m.ram, p.pt)))
  {
    ghost var ram0, free0 := m.ram, m.Free();
    assert InRam(p.tf);
    ret, s, sp, o, offs := -1, p, 0, 0, [];
    if path !in programs {
      return;
    }
    var img := programs[path];
    var root, entry, sz, top;
    root, entry, sz, top, offs, o := BuildImage(m, tramp, img, b, starts, argv, used);
    if root == 0 {
      return;
    }
    sp := top;
    ghost var view := UserView(m.ram, root);
    ImageFacts(view, img, argv, sz, top, o, offs);
    SpaceDisjoint(m.ram, m.Free(), root, m.first);
    s := Commit(m, p, path, root, entry, sz, top, ram0, free0);
    assert ImageView(UserView(m.ram, s.pt), img, argv, s.sz, o, offs);
    ret := |starts|;
  }

  lemma ImageFacts(view: View, img: Image, argv: seq<Bytes>, sz: nat, sp: nat, o: nat, offs: seq<int>)
    requires ImageView(view, img, argv, sz, o, offs) && sp == STACK_BASE + 4 * o
    ensures EndsAt(view, sz) && sp < 0x1_0000_0000 && Entry(img) < 0x1_0000_0000
  {
    ImageEnds(view, sz);
  }
}

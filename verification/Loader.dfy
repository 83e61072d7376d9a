/** load_elf and load_segment of kernel/exec.c. */
module Loader {
  import opened Layout
  import opened PageTable
  import opened Memory
  import opened UserSpace
  import opened PageCount
  import opened Grow
  import opened UserCopy
  import opened Elf

  /** The PTE permissions of a segment beyond PTE_R | PTE_U. */
  function SegmentPerm(h: Segment): nat {
    (if HasBit(h.flags, 1) then PTE_X else 0) + (if HasBit(h.flags, 2) then PTE_W else 0)
  }

  /** Page flags that let the user read, and write or execute as told. */
  predicate Rights(flags: nat, write: bool, exec: bool) {
    && flags < 32 && IsValid(flags) && HasBit(flags, PTE_R) && HasBit(flags, PTE_U)
    && HasBit(flags, PTE_W) == write && HasBit(flags, PTE_X) == exec
  }

  /** The rights p_flags asks for: bit 0 (PF_X) is execute, bit 1 (PF_W) is write. */
  predicate Permits(flags: nat, h: Segment) {
    Rights(flags, h.flags / 2 % 2 == 1, h.flags % 2 == 1)
  }

  /** Byte k of a segment in memory: from the file below filesz, zero above. */
  function SegmentByte(img: Image, h: Segment, k: nat): Byte {
    if k < h.filesz then ImageByte(img, h.offset + k) else 0
  }

  /** Byte k of a loaded segment, through the view. */
  ghost predicate ByteLoaded(view: View, img: Image, h: Segment, k: nat) {
    var a := h.va + k;
    && a / 4096 in view && ByteAt(view, a) == SegmentByte(img, h, k)
    && Permits(view[a / 4096].flags, h)
  }

  /** The whole segment is in memory, below size. */
  ghost predicate SegmentLoaded(view: View, img: Image, h: Segment, size: nat) {
    && h.offset + h.filesz <= |img.bytes| && h.filesz <= h.memsz && h.va + h.memsz <= size
    && forall k :: 0 <= k < h.memsz ==> ByteLoaded(view, img, h, k)
  }

  /** The segments of the first n program headers are in memory, below size. */
  ghost predicate Loaded(view: View, img: Image, n: nat, size: nat) {
    forall i :: 0 <= i < n && Loads(SegmentOf(img, i)) ==> SegmentLoaded(view, img, SegmentOf(img, i), size)
  }

  /** The user pages are exactly those from USER_BASE up to size. */
  ghost predicate ImageIs(view: View, size: nat) {
    forall v :: v in view <==> 1 <= v && v * 4096 < size
  }

  // ---------------------------------------------------------------- one segment, on views

  ghost function SegmentView(view: View, lo: nat, hi: nat, flags: nat, va: nat, bytes: seq<Byte>): View
    requires va < 0x1_0000_0000
  {
    Written(view + ZeroRun(lo, hi, flags), va, bytes)
  }

  lemma OldPage(view: View, lo: nat, hi: nat, flags: nat, va: nat, bytes: seq<Byte>, v: nat)
    requires lo * 4096 <= va && va + |bytes| <= UART_0 && ViewOk(view) && v in view && v < lo
    ensures v in SegmentView(view, lo, hi, flags, va, bytes)
    ensures SegmentView(view, lo, hi, flags, va, bytes)[v] == view[v]
  {
    var p := view[v].bytes;
    assert WrittenPage(p, v * 4096, va, bytes) == p;
  }

  lemma NewByte(view: View, lo: nat, hi: nat, flags: nat, va: nat, bytes: seq<Byte>, k: nat, a: nat)
    requires lo * 4096 <= va && va + |bytes| <= UART_0 && lo <= a / 4096 < hi && a < UART_0 && a == va + k
    ensures var view' := SegmentView(view, lo, hi, flags, va, bytes);
            && a / 4096 in view' && view'[a / 4096].flags == WithValid(flags)
            && ByteAt(view', a) == if k < |bytes| then bytes[k] else 0
  {
    var v, i := a / 4096, a % 4096;
    assert Between(v, lo, hi);
    assert ZeroRun(lo, hi, flags)[v] == UserPage(WithValid(flags), ZERO_PAGE);
    assert WrittenPage(ZERO_PAGE, v * 4096, va, bytes)[i] == WrittenByte(ZERO_PAGE[i], v * 4096 + i, va, bytes);
  }

  lemma SegmentViewKeys(view: View, lo: nat, hi: nat, flags: nat, va: nat, bytes: seq<Byte>)
    requires va < 0x1_0000_0000 && ViewOk(view) && hi <= UART_VPN
    ensures forall v :: v in SegmentView(view, lo, hi, flags, va, bytes) <==> v in view || Between(v, lo, hi)
  {
  }

  lemma PageUpIs(a: nat)
    ensures PageUp(a) % 4096 == 0 && a <= PageUp(a) < a + 4096 && PageUp(a) / 4096 * 4096 == PageUp(a)
  {
  }

  lemma PageBelow(a: nat, size: nat)
    requires a < size
    ensures a / 4096 < PageUp(size) / 4096
  {
  }

  /** Loading a segment above size disturbs nothing below. */
  lemma EarlierSegment(view: View, img: Image, h: Segment, size: nat, hi: nat, flags: nat, va: nat, bytes: seq<Byte>)
    requires SegmentLoaded(view, img, h, size) && ViewOk(view) && PageUp(size) <= va && va + |bytes| <= UART_0
    ensures SegmentLoaded(SegmentView(view, PageUp(size) / 4096, hi, flags, va, bytes), img, h, va + |bytes|)
  {
    var lo := PageUp(size) / 4096;
    PageUpIs(size);
    forall k | 0 <= k < h.memsz
      ensures ByteLoaded(SegmentView(view, lo, hi, flags, va, bytes), img, h, k)
    {
      assert ByteLoaded(view, img, h, k);
      PageBelow(h.va + k, size);
      OldPage(view, lo, hi, flags, va, bytes, (h.va + k) / 4096);
    }
  }

  lemma AlignedAbove(size: nat, va: nat)
    requires size <= va && va % 4096 == 0
    ensures PageUp(size) <= va
  {
  }

  lemma PermFlags(h: Segment, perm: nat, flags: nat)
    requires perm == SegmentPerm(h) && flags == PTE_R + PTE_U + perm
    ensures perm in {0, PTE_W, PTE_X, PTE_W + PTE_X} && Permits(WithValid(flags), h)
  {
  }

  lemma PageAbove(lo: nat, a: nat)
    requires lo * 4096 <= a
    ensures lo <= a / 4096
  {
  }

  lemma NewSegmentByte(view: View, img: Image, h: Segment, lo: nat, hi: nat, flags: nat, bytes: seq<Byte>, k: nat)
    requires lo * 4096 <= h.va && h.va + h.memsz <= UART_0 && k < h.memsz && h.filesz <= h.memsz
    requires (h.va + k) / 4096 < hi
    requires h.offset + h.filesz <= |img.bytes| && bytes == img.bytes[h.offset..h.offset + h.filesz]
    requires Permits(WithValid(flags), h)
    ensures ByteLoaded(SegmentView(view, lo, hi, flags, h.va, bytes), img, h, k)
  {
    var a := h.va + k;
    PageAbove(lo, a);
    FileByte(img, h, bytes, k);
    NewByte(view, lo, hi, flags, h.va, bytes, k, a);
    ByteIsLoaded(SegmentView(view, lo, hi, flags, h.va, bytes), img, h, k, a, WithValid(flags));
  }

  lemma ByteIsLoaded(view: View, img: Image, h: Segment, k: nat, a: nat, flags: nat)
    requires a == h.va + k && a / 4096 in view && view[a / 4096].flags == flags && Permits(flags, h)
    requires ByteAt(view, a) == SegmentByte(img, h, k)
    ensures ByteLoaded(view, img, h, k)
  {
  }

  lemma FileByte(img: Image, h: Segment, bytes: seq<Byte>, k: nat)
    requires h.offset + h.filesz <= |img.bytes| && bytes == img.bytes[h.offset..h.offset + h.filesz]
    ensures |bytes| == h.filesz && SegmentByte(img, h, k) == if k < |bytes| then bytes[k] else 0
  {
  }

  /** The new segment itself. */
  lemma NewSegment(view: View, img: Image, h: Segment, size: nat, flags: nat, bytes: seq<Byte>)
    requires SegmentFits(h, size, |img.bytes|) && bytes == img.bytes[h.offset..h.offset + h.filesz]
    requires Permits(WithValid(flags), h)
    ensures var size' := h.va + h.memsz;
            SegmentLoaded(SegmentView(view, PageUp(size) / 4096, PageUp(size') / 4096, flags, h.va, bytes), img, h,
                          size')
  {
    var size' := h.va + h.memsz;
    var lo, hi := PageUp(size) / 4096, PageUp(size') / 4096;
    PageUpIs(size);
    AlignedAbove(size, h.va);
    forall k | 0 <= k < h.memsz
      ensures ByteLoaded(SegmentView(view, lo, hi, flags, h.va, bytes), img, h, k)
    {
      PageBelow(h.va + k, size');
      NewSegmentByte(view, img, h, lo, hi, flags, bytes, k);
    }
  }

  lemma PagesEnd(view: View, view': View, size: nat, size': nat)
    requires USER_BASE <= size <= size' && ImageIs(view, size)
    requires forall v :: v in view' <==> v in view || Between(v, PageUp(size) / 4096, PageUp(size') / 4096)
    ensures ImageIs(view', size')
  {
    forall v: nat
      ensures v in view' <==> 1 <= v && v * 4096 < size'
    {
      PageOf(v, size);
      PageOf(v, size');
    }
  }

  lemma PageOf(v: nat, size: nat)
    ensures v * 4096 < size <==> v < PageUp(size) / 4096
  {
  }

  /** From the first n headers to the first n' = n + 1, when header n loads segment h. */
  lemma LoadedNext(view: View, view': View, img: Image, n: nat, n': nat, h: Segment, size: nat, end: nat, lo: nat,
                   hi: nat, flags: nat, bytes: seq<Byte>)
    requires Loaded(view, img, n, size) && ImageIs(view, size) && ViewOk(view) && USER_BASE <= size
    requires n' == n + 1 && h == SegmentOf(img, n) && SegmentFits(h, size, |img.bytes|) && end == h.va + h.memsz
    requires h.memsz > 0
    requires bytes == img.bytes[h.offset..h.offset + h.filesz] && Permits(WithValid(flags), h)
    requires lo == PageUp(size) / 4096 && hi == PageUp(end) / 4096
    requires view' == SegmentView(view, lo, hi, flags, h.va, bytes)
    ensures Loaded(view', img, n', end) && ImageIs(view', end)
  {
    AlignedAbove(size, h.va);
    forall i | 0 <= i < n && Loads(SegmentOf(img, i))
      ensures SegmentLoaded(view', img, SegmentOf(img, i), end)
    {
      EarlierSegment(view, img, SegmentOf(img, i), size, hi, flags, h.va, bytes);
    }
    NewSegment(view, img, h, size, flags, bytes);
    EndBelow(end);
    SegmentViewKeys(view, lo, hi, flags, h.va, bytes);
    PagesEnd(view, view', size, end);
  }

  lemma EndBelow(size: nat)
    requires size <= UART_0
    ensures PageUp(size) <= UART_0 && PageUp(size) / 4096 <= UART_VPN
  {
  }

  // ---------------------------------------------------------------- load_segment

  lemma OverwrittenKept(ram: Ram, ram': Ram, free: set<nat>, root: nat, first: nat)
    requires root in ram && Overwritten(ram, ram', free, root, first)
    ensures Kept(ram, free, ram', free, root, first)
  {
  }

  lemma SegmentMapped(view: View, lo: nat, hi: nat, flags: nat, va: nat, n: nat)
    requires lo * 4096 <= va && va + n <= UART_0 && (n > 0 ==> (va + n - 1) / 4096 < hi)
    ensures RangeAllows(view + ZeroRun(lo, hi, flags), va, n, 0)
  {
    forall i | 0 <= i < n
      ensures Allows(view + ZeroRun(lo, hi, flags), Plus(va, i), 0)
    {
      PageAbove(lo, va + i);
      PageOrder(va + i, va + n - 1);
      assert Between((va + i) / 4096, lo, hi);
    }
  }

  lemma PageOrder(a: nat, b: nat)
    requires a <= b
    ensures a / 4096 <= b / 4096
  {
  }

  /** load_segment: writes the bytes (those of the image from `offset` on) at va, if every page is mapped. */
  method LoadSegment(m: Machine, root: nat, va: nat, bytes: seq<Byte>) returns (ok: bool)
    requires m.Valid() && SpaceOk(m.ram, m.Free(), root, m.first) && va < 0x1_0000_0000 && |bytes| < 0x1_0000_0000
    modifies m`ram
    ensures m.Valid() && m.Free() == old(m.Free()) && TableSet(m.ram, root) == old(TableSet(m.ram, root))
    ensures ok <==> RangeAllows(old(UserView(m.ram, root)), va, |bytes|, 0)
    ensures Kept(old(m.ram), m.Free(), m.ram, m.Free(), root, m.first)
    ensures ok ==> UserView(m.ram, root) == Written(old(UserView(m.ram, root)), va, bytes)
  {
    ghost var ram0, sent := m.ram, 0;
    ok, sent := Send(m, root, va, bytes, 0);
    assert ok ==> bytes[..sent] == bytes;
    OverwrittenKept(ram0, m.ram, m.Free(), root, m.first);
  }

  // ---------------------------------------------------------------- load_elf

  lemma UnmappedAbove(ram: Ram, free: set<nat>, root: nat, first: nat, size: nat, hi: nat)
    requires SpaceOk(ram, free, root, first) && AllRam(ram) && RAM_FIRST <= first && USER_BASE <= size
    requires ImageIs(UserView(ram, root), size) && hi <= UART_VPN
    ensures NotMapped(Flat(ram, root), PageUp(size) / 4096, hi)
  {
    ViewKeys(Flat(ram, root), Tables(ram, root), free, first, ram);
    forall v | v in Flat(ram, root)
      ensures !(PageUp(size) / 4096 <= v < hi)
    {
      PageOf(v, size);
      PageOf(0, size);
    }
  }

  /** The page after the last one of an image that ends at size. */
  function PagesTo(size: nat): nat {
    PageUp(size) / 4096
  }

  /** uvmalloc for one accepted segment, which ends at `end`. */
  method GrowSegment(m: Machine, root: nat, size: nat, end: nat, perm: nat) returns (ok: bool)
    requires m.Valid() && SpaceOk(m.ram, m.Free(), root, m.first) && ImageIs(UserView(m.ram, root), size)
    requires USER_BASE <= size <= end <= UART_0 && perm in {0, PTE_W, PTE_X, PTE_W + PTE_X}
    modifies m, m.bitmap
    ensures m.Valid() && Kept(old(m.ram), old(m.Free()), m.ram, m.Free(), root, m.first)
    ensures !ok <==> Short(old(m.ram), old(m.Free()), root, PagesTo(size), PagesTo(end))
    ensures !ok ==> UserView(m.ram, root) == old(UserView(m.ram, root))
    ensures ok ==> UserView(m.ram, root) ==
                   old(UserView(m.ram, root)) + ZeroRun(PagesTo(size), PagesTo(end), PTE_R + PTE_U + perm)
    ensures ok ==> TableSet(m.ram, root) == old(TableSet(m.ram, root)) + Regions(PagesTo(size), PagesTo(end))
  {
    EndBelow(end);
    UnmappedAbove(m.ram, m.Free(), root, m.first, size, PagesTo(end));
    var newsz := UvmAlloc(m, root, size, end, perm);
    ok := newsz != 0;
  }

  /** uvmalloc and load_segment for one accepted segment. */
  method LoadOne(m: Machine, root: nat, size: nat, va: nat, end: nat, perm: nat, bytes: seq<Byte>, ghost flags: nat)
    returns (ok: bool)
    requires m.Valid() && SpaceOk(m.ram, m.Free(), root, m.first) && ImageIs(UserView(m.ram, root), size)
    requires USER_BASE <= size <= va < end <= UART_0 && perm in {0, PTE_W, PTE_X, PTE_W + PTE_X}
    requires va % 4096 == 0 && va + |bytes| <= end && flags == PTE_R + PTE_U + perm
    modifies m, m.bitmap
    ensures m.Valid() && Kept(old(m.ram), old(m.Free()), m.ram, m.Free(), root, m.first)
    ensures !ok <==> Short(old(m.ram), old(m.Free()), root, PagesTo(size), PagesTo(end))
    ensures !ok ==> UserView(m.ram, root) == old(UserView(m.ram, root))
    ensures ok ==> UserView(m.ram, root) ==
                   SegmentView(old(UserView(m.ram, root)), PagesTo(size), PagesTo(end), flags, va, bytes)
    ensures ok ==> TableSet(m.ram, root) == old(TableSet(m.ram, root)) + Regions(PagesTo(size), PagesTo(end))
  {
    ghost var ram0, free0, view0 := m.ram, m.Free(), UserView(m.ram, root);
    ok := GrowSegment(m, root, size, end, perm);
    if !ok {
      return;
    }
    ghost var ram1, free1 := m.ram, m.Free();
    RangeReady(view0, size, va, end, |bytes|, flags);
    var filled := LoadSegment(m, root, va, bytes);
    KeptTrans(ram0, free0, ram1, free1, m.ram, m.Free(), root, m.first);
  }

  lemma RangeReady(view: View, size: nat, va: nat, end: nat, n: nat, flags: nat)
    requires va + n <= end && va < end && va % 4096 == 0 && size <= va && end <= UART_0
    ensures RangeAllows(view + ZeroRun(PagesTo(size), PagesTo(end), flags), va, n, 0)
  {
    PageUpIs(size);
    AlignedAbove(size, va);
    if n > 0 {
      PageBelow(va + n - 1, end);
    }
    SegmentMapped(view, PagesTo(size), PagesTo(end), flags, va, n);
  }

  // ---------------------------------------------------------------- the loop of load_elf

  /** Loading has got through the first n program headers. */
  ghost predicate Progress(ram0: Ram, free0: set<nat>, ram: Ram, free: set<nat>, root: nat, first: nat,
                           img: Image, n: nat, size: nat)
    requires root in ram0
  {
    && Kept(ram0, free0, ram, free, root, first)
    && TableSet(ram, root) == TableSet(ram0, root) + Regions(1, PagesTo(size))
    && ImageIs(UserView(ram, root), size) && Loaded(UserView(ram, root), img, n, size)
  }

  lemma SkipHeader(view: View, img: Image, n: nat, n': nat, size: nat)
    requires n' == n + 1 && Loaded(view, img, n, size) && !Loads(SegmentOf(img, n))
    ensures Loaded(view, img, n', size)
  {
  }

  lemma RegionsJoin(lo: nat, mid: nat, hi: nat)
    requires lo <= mid <= hi
    ensures Regions(lo, mid) + Regions(mid, hi) == Regions(lo, hi)
  {
    assert PagesIn(lo, mid) + PagesIn(mid, hi) == PagesIn(lo, hi);
  }

  lemma PagesOrder(size: nat, end: nat)
    requires USER_BASE <= size <= end
    ensures 1 <= PagesTo(size) <= PagesTo(end)
  {
  }

  /** From one segment to the next, on memory. */
  lemma ProgressNext(ram0: Ram, free0: set<nat>, ram1: Ram, free1: set<nat>, ram2: Ram, free2: set<nat>, root: nat,
                     first: nat, img: Image, n: nat, n': nat, h: Segment, size: nat, end: nat, lo: nat, hi: nat,
                     flags: nat, bytes: seq<Byte>)
    requires root in ram0 && Progress(ram0, free0, ram1, free1, root, first, img, n, size) && n' == n + 1
    requires h == SegmentOf(img, n) && SegmentFits(h, size, |img.bytes|) && end == h.va + h.memsz && h.memsz > 0
    requires bytes == img.bytes[h.offset..h.offset + h.filesz] && Permits(WithValid(flags), h)
    requires USER_BASE <= size && Kept(ram1, free1, ram2, free2, root, first) && lo == PagesTo(size)
    requires hi == PagesTo(end)
    requires UserView(ram2, root) == SegmentView(UserView(ram1, root), lo, hi, flags, h.va, bytes)
    requires TableSet(ram2, root) == TableSet(ram1, root) + Regions(lo, hi)
    ensures Progress(ram0, free0, ram2, free2, root, first, img, n', end)
  {
    KeptTrans(ram0, free0, ram1, free1, ram2, free2, root, first);
    ViewIsOk(ram1, root);
    LoadedNext(UserView(ram1, root), UserView(ram2, root), img, n, n', h, size, end, lo, hi, flags, bytes);
    PagesOrder(size, end);
    RegionsJoin(1, lo, hi);
  }

  lemma ProgressStays(ram0: Ram, free0: set<nat>, ram1: Ram, free1: set<nat>, ram2: Ram, free2: set<nat>, root: nat,
                      first: nat, view: View)
    requires root in ram0 && Kept(ram0, free0, ram1, free1, root, first) && Kept(ram1, free1, ram2, free2, root, first)
    requires UserView(ram1, root) == view && UserView(ram2, root) == view
    ensures Kept(ram0, free0, ram2, free2, root, first)
  {
    KeptTrans(ram0, free0, ram1, free1, ram2, free2, root, first);
  }

  // ---------------------------------------------------------------- how many pages

  lemma ImageCount(view: View, size: nat)
    requires USER_BASE <= size && ImageIs(view, size)
    ensures |view| == PagesTo(size) - 1
  {
    PagesOrder(size, size);
    forall v: nat
      ensures v in view.Keys <==> v in PagesIn(1, PagesTo(size))
    {
      PageOf(v, size);
    }
    assert view.Keys == PagesIn(1, PagesTo(size));
    PagesInCount(1, PagesTo(size));
  }

  /** If a segment cannot be had, an image that reaches as far as that segment was too much to ask for. */
  lemma ShortImage(ram0: Ram, free0: set<nat>, ram1: Ram, free1: set<nat>, root: nat, first: nat, size: nat, lo: nat,
                   hi: nat)
    requires SpaceOk(ram0, free0, root, first) && AllRam(ram0) && AllRam(ram1) && RAM_FIRST <= first
    requires UserView(ram0, root) == map[] && USER_BASE <= size && lo == PagesTo(size) <= hi
    requires Kept(ram0, free0, ram1, free1, root, first) && ImageIs(UserView(ram1, root), size)
    requires TableSet(ram1, root) == TableSet(ram0, root) + Regions(1, lo) && Short(ram1, free1, root, lo, hi)
    ensures Short(ram0, free0, root, 1, hi)
  {
    KeptCount(ram0, free0, ram1, free1, root, first);
    ImageCount(UserView(ram1, root), size);
    PagesOrder(size, size);
    JoinedTables(TableSet(ram0, root), TableSet(ram1, root), lo, hi);
  }

  lemma JoinedTables(t0: set<nat>, t1: set<nat>, lo: nat, hi: nat)
    requires 1 <= lo <= hi && t1 == t0 + Regions(1, lo)
    ensures t1 + Regions(lo, hi) == t0 + Regions(1, hi)
  {
    RegionsJoin(1, lo, hi);
  }

  lemma ShortGrows(ram: Ram, free: set<nat>, root: nat, hi: nat, hi': nat)
    requires root in ram && hi <= hi' && Short(ram, free, root, 1, hi)
    ensures Short(ram, free, root, 1, hi')
  {
    RegionsGrow(1, hi, hi');
    SubsetCount(TableSet(ram, root) + Regions(1, hi), TableSet(ram, root) + Regions(1, hi'));
  }

  /** Memory sufficed for the whole image. */
  lemma ImageCost(ram0: Ram, free0: set<nat>, ram1: Ram, free1: set<nat>, root: nat, first: nat, size: nat)
    requires SpaceOk(ram0, free0, root, first) && AllRam(ram0) && AllRam(ram1) && RAM_FIRST <= first
    requires UserView(ram0, root) == map[] && USER_BASE <= size && Kept(ram0, free0, ram1, free1, root, first)
    requires TableSet(ram1, root) == TableSet(ram0, root) + Regions(1, PagesTo(size))
    requires ImageIs(UserView(ram1, root), size)
    ensures !Short(ram0, free0, root, 1, PagesTo(size))
    ensures |free0| + |TableSet(ram0, root)| == |free1| + (PagesTo(size) - 1) + |TableSet(ram1, root)|
  {
    KeptCount(ram0, free0, ram1, free1, root, first);
    ImageCount(UserView(ram1, root), size);
  }

  // ---------------------------------------------------------------- rounds

  /** The part of the round that allocates and copies, for segment h of header n. */
  method LoadFitting(m: Machine, root: nat, img: Image, h: Segment, size: nat, ghost n: nat, ghost n': nat,
                     ghost ram0: Ram, ghost free0: set<nat>)
    returns (ok: bool, end: nat)
    requires m.Valid() && AllRam(ram0) && SpaceOk(ram0, free0, root, m.first) && UserView(ram0, root) == map[]
    requires USER_BASE <= size && n' == n + 1 && h == SegmentOf(img, n)
    requires h.memsz > 0 && SegmentFits(h, size, |img.bytes|)
    requires Progress(ram0, free0, m.ram, m.Free(), root, m.first, img, n, size)
    modifies m, m.bitmap
    ensures m.Valid() && end == h.va + h.memsz
    ensures ok ==> Progress(ram0, free0, m.ram, m.Free(), root, m.first, img, n', end)
    ensures !ok ==> Kept(ram0, free0, m.ram, m.Free(), root, m.first) && ImageIs(UserView(m.ram, root), size)
    ensures !ok ==> Short(ram0, free0, root, 1, PagesTo(end))
  {
    var va, perm, bytes := h.va, SegmentPerm(h), img.bytes[h.offset..h.offset + h.filesz];
    end := va + h.memsz;
    ghost var ram1, free1, view1, flags := m.ram, m.Free(), UserView(m.ram, root), PTE_R + PTE_U + perm;
    ghost var lo, hi := PagesTo(size), PagesTo(end);
    PermFlags(h, perm, flags);
    PagesOrder(size, end);
    ok := LoadOne(m, root, size, va, end, perm, bytes, flags);
    if ok {
      ProgressNext(ram0, free0, ram1, free1, m.ram, m.Free(), root, m.first, img, n, n', h, size, end, lo, hi, flags,
                   bytes);
    } else {
      ProgressStays(ram0, free0, ram1, free1, m.ram, m.Free(), root, m.first, view1);
      ShortImage(ram0, free0, ram1, free1, root, m.first, size, lo, hi);
    }
  }

  /** The outcome of a round: go on, stop because the image is unacceptable, or because memory ran out. */
  datatype Round = GoOn | Reject | NoMemory

  /** One round of load_elf's loop, after the bounds test of header n, which is h. */
  method LoadHeader(m: Machine, root: nat, img: Image, h: Segment, size: nat, ghost n: nat, ghost n': nat,
                    ghost ram0: Ram, ghost free0: set<nat>)
    returns (round: Round, size': nat, ghost end: nat)
    requires m.Valid() && AllRam(ram0) && SpaceOk(ram0, free0, root, m.first) && UserView(ram0, root) == map[]
    requires USER_BASE <= size <= UART_0 && n' == n + 1 && |img.bytes| <= 0x800_0000 && h == SegmentOf(img, n)
    requires Progress(ram0, free0, m.ram, m.Free(), root, m.first, img, n, size)
    modifies m, m.bitmap
    ensures m.Valid() && USER_BASE <= size' <= UART_0
    ensures round.GoOn? ==>
              (if Loads(h) then SegmentFits(h, size, |img.bytes|) && size' == h.va + h.memsz else size' == size)
    ensures round.Reject? ==> Loads(h) && !SegmentFits(h, size, |img.bytes|)
    ensures round.NoMemory? ==> Loads(h) && end == h.va + h.memsz && Short(ram0, free0, root, 1, PagesTo(end))
    ensures round.GoOn? ==> Progress(ram0, free0, m.ram, m.Free(), root, m.first, img, n', size')
    ensures !round.GoOn? ==> Kept(ram0, free0, m.ram, m.Free(), root, m.first) && ImageIs(UserView(m.ram, root), size')
  {
    if !Loads(h) {
      SkipHeader(UserView(m.ram, root), img, n, n', size);
      return GoOn, size, size;
    }
    FitsIn32Bits(h, size, |img.bytes|);
    if !SegmentFits32(h, size, |img.bytes|) {
      return Reject, size, size;
    }
    var ok, last := LoadFitting(m, root, img, h, size, n, n', ram0, free0);
    round, size', end := if ok then GoOn else NoMemory, if ok then last else size, last;
  }

  lemma WholePages(view: View, img: Image, n: nat, size: nat)
    requires USER_BASE <= size <= UART_0 && ImageIs(view, size)
    ensures ImageIs(view, PageUp(size)) && PageUp(size) % 4096 == 0 && USER_BASE <= PageUp(size) <= UART_0
    ensures Loaded(view, img, n, size) ==> Loaded(view, img, n, PageUp(size))
  {
    PageUpIs(size);
    EndBelow(size);
    forall v: nat
      ensures v * 4096 < size <==> v * 4096 < PageUp(size)
    {
      PageOf(v, size);
    }
  }

  lemma ProgressStart(ram: Ram, free: set<nat>, root: nat, first: nat, img: Image)
    requires SpaceOk(ram, free, root, first) && UserView(ram, root) == map[]
    ensures Progress(ram, free, ram, free, root, first, img, 0, USER_BASE)
  {
    RegionsNext(1, 1);
  }

  /** What the loop knows after i of the program headers: where it will end (facts are computed once), and that
      it has read the headers so far. */
  datatype Facts = Facts(end: int, headers: nat)

  ghost function FactsOf(img: Image): Facts {
    Facts(EndFrom(img, 0, USER_BASE), Phnum(img))
  }

  ghost predicate Parsed(img: Image, facts: Facts, i: nat, size: nat) {
    i <= facts.headers && facts.end == EndFrom(img, i, size) && Passed(img, i)
  }

  lemma ParsedStart(img: Image, facts: Facts)
    requires facts == FactsOf(img)
    ensures Parsed(img, facts, 0, USER_BASE)
  {
  }

  lemma ParsedNext(img: Image, facts: Facts, i: nat, i': nat, h: Segment, size: nat, size': nat)
    requires i < Phnum(img) && i' == i + 1 && HeaderInFile(img, i) && facts == FactsOf(img)
    requires Parsed(img, facts, i, size)
    requires h == SegmentOf(img, i)
    requires if Loads(h) then SegmentFits(h, size, |img.bytes|) && size' == h.va + h.memsz else size' == size
    ensures Parsed(img, facts, i', size')
  {
  }

  lemma ParsedRejected(img: Image, facts: Facts, i: nat, h: Segment, size: nat)
    requires i < Phnum(img) && facts == FactsOf(img) && Parsed(img, facts, i, size)
    requires h == SegmentOf(img, i) && (!HeaderInFile(img, i) || (Loads(h) && !SegmentFits(h, size, |img.bytes|)))
    ensures facts.end == -1
  {
  }

  /** The headers below `read` have been read, each after its test. */
  ghost predicate ReadUpTo(img: Image, facts: Facts, read: nat) {
    read <= facts.headers && Passed(img, read) && (read == 0 ==> facts.headers == 0 || !HeaderInFile(img, 0))
  }

  lemma ParsedRead(img: Image, facts: Facts, i: nat, i': nat, size: nat)
    requires i' == i + 1 && i < facts.headers && HeaderInFile(img, i) && Parsed(img, facts, i, size)
    ensures ReadUpTo(img, facts, i')
  {
  }

  lemma ReadNoMore(img: Image, facts: Facts, i: nat, size: nat)
    requires !HeaderInFile(img, i) && Parsed(img, facts, i, size)
    ensures ReadUpTo(img, facts, i)
  {
  }

  /** Where the loader ran out of memory is not beyond the end of the image. */
  lemma ParsedShort(img: Image, facts: Facts, i: nat, i': nat, h: Segment, size: nat, end: nat, ram: Ram,
                    free: set<nat>, root: nat)
    requires i < Phnum(img) && facts == FactsOf(img) && Parsed(img, facts, i, size) && HeaderInFile(img, i)
    requires root in ram && h == SegmentOf(img, i) && i' == i + 1 && Loads(h) && end == h.va + h.memsz
    requires Short(ram, free, root, 1, PagesTo(end))
    ensures CannotLoad(facts, ram, free, root)
  {
    EndGrows(img, i', Phnum(img), end);
    if facts.end != -1 {
      PageUpOrder(end, facts.end);
      ShortGrows(ram, free, root, PagesTo(end), PagesTo(facts.end));
    }
  }

  lemma PageUpOrder(a: nat, b: nat)
    requires a <= b
    ensures PagesTo(a) <= PagesTo(b)
  {
  }

  /** load_elf cannot load this image: it is unacceptable, or larger than memory allows. */
  ghost predicate CannotLoad(facts: Facts, ram: Ram, free: set<nat>, root: nat)
    requires root in ram
  {
    facts.end < 0 || Short(ram, free, root, 1, PagesTo(facts.end))
  }

  /** One whole round of load_elf's loop; `read` is the number of program headers read so far. */
  method LoadRound(m: Machine, root: nat, img: Image, i: nat, size: nat, ghost i': nat,
                   ghost ram0: Ram, ghost free0: set<nat>, ghost facts: Facts)
    returns (ok: bool, size': nat, ghost read: nat)
    requires m.Valid() && AllRam(ram0) && SpaceOk(ram0, free0, root, m.first) && UserView(ram0, root) == map[]
    requires USER_BASE <= size <= UART_0 && i' == i + 1 && |img.bytes| <= 0x800_0000
    requires i < Phnum(img) && facts == FactsOf(img) && Parsed(img, facts, i, size)
    requires Progress(ram0, free0, m.ram, m.Free(), root, m.first, img, i, size)
    modifies m, m.bitmap
    ensures m.Valid() && USER_BASE <= size' <= UART_0
    ensures ok ==> Parsed(img, facts, i', size')
                   && Progress(ram0, free0, m.ram, m.Free(), root, m.first, img, i', size')
    ensures !ok ==> CannotLoad(facts, ram0, free0, root)
    ensures !ok ==> Kept(ram0, free0, m.ram, m.Free(), root, m.first) && ImageIs(UserView(m.ram, root), size')
    ensures ReadUpTo(img, facts, read)
  {
    if !HeaderInFile(img, i) {
      ParsedRejected(img, facts, i, SegmentOf(img, i), size);
      ReadNoMore(img, facts, i, size);
      return false, size, i;
    }
    ParsedRead(img, facts, i, i', size);
    var round, h := GoOn, SegmentOf(img, i);
    ghost var end;
    round, size', end := LoadHeader(m, root, img, h, size, i, i', ram0, free0);
    read := i';
    ok := round.GoOn?;
    RoundEnds(round, img, facts, i, i', h, size, size', end, ram0, free0, root);
  }

  lemma RoundEnds(round: Round, img: Image, facts: Facts, i: nat, i': nat, h: Segment, size: nat, size': nat, end: nat,
                  ram: Ram, free: set<nat>, root: nat)
    requires i < Phnum(img) && facts == FactsOf(img) && Parsed(img, facts, i, size) && HeaderInFile(img, i)
    requires root in ram && h == SegmentOf(img, i) && i' == i + 1
    requires round.GoOn? ==>
               if Loads(h) then SegmentFits(h, size, |img.bytes|) && size' == h.va + h.memsz else size' == size
    requires round.Reject? ==> Loads(h) && !SegmentFits(h, size, |img.bytes|)
    requires round.NoMemory? ==> Loads(h) && end == h.va + h.memsz && Short(ram, free, root, 1, PagesTo(end))
    ensures round.GoOn? ==> Parsed(img, facts, i', size')
    ensures !round.GoOn? ==> CannotLoad(facts, ram, free, root)
  {
    match round
    case GoOn => ParsedNext(img, facts, i, i', h, size, size');
    case Reject => ParsedRejected(img, facts, i, h, size);
    case NoMemory => ParsedShort(img, facts, i, i', h, size, end, ram, free, root);
  }

  /** load_elf's loop. */
  method LoadHeaders(m: Machine, root: nat, img: Image, ghost facts: Facts, ghost ram0: Ram, ghost free0: set<nat>)
    returns (ok: bool, size: nat, ghost read: nat)
    requires m.Valid() && m.ram == ram0 && m.Free() == free0 && SpaceOk(ram0, free0, root, m.first)
    requires UserView(ram0, root) == map[] && |img.bytes| <= 0x800_0000 && facts == FactsOf(img)
    modifies m, m.bitmap
    ensures m.Valid() && USER_BASE <= size <= UART_0
    ensures ok ==> facts.end == size && read == facts.headers
    ensures ok ==> Progress(ram0, free0, m.ram, m.Free(), root, m.first, img, read, size)
    ensures !ok ==> CannotLoad(facts, ram0, free0, root)
    ensures !ok ==> Kept(ram0, free0, m.ram, m.Free(), root, m.first) && ImageIs(UserView(m.ram, root), size)
    ensures ReadUpTo(img, facts, read)
  {
    ProgressStart(ram0, free0, root, m.first, img);
    ParsedStart(img, facts);
    var i, n := 0, Phnum(img);
    size := USER_BASE;
    while i < n
      invariant 0 <= i <= n && m.Valid() && USER_BASE <= size <= UART_0
      invariant Parsed(img, facts, i, size)
      invariant Progress(ram0, free0, m.ram, m.Free(), root, m.first, img, i, size)
    {
      var i' := i + 1;
      ok, size, read := LoadRound(m, root, img, i, size, i', ram0, free0, facts);
      if !ok {
        return;
      }
      i := i';
    }
    ParsedAll(img, facts, size);
    ok, read := true, n;
  }

  lemma ParsedAll(img: Image, facts: Facts, size: nat)
    requires facts == FactsOf(img) && Parsed(img, facts, Phnum(img), size)
    ensures facts.end == size && ReadUpTo(img, facts, facts.headers)
  {
  }

  /** The page after the image, for an acceptable image. */
  ghost function ImageEnd(img: Image): nat
    requires EndFrom(img, 0, USER_BASE) >= 0
  {
    PagesTo(EndFrom(img, 0, USER_BASE))
  }

  /** load_elf into a fresh table.  On success every byte of every loaded segment reads through the table as
      the image says, with the segment's permissions, and the user pages are exactly [USER_BASE, sz).  It
      fails exactly for images it must reject and if the free pages are fewer than the image's pages and
      the tables they need; sz then still bounds what was mapped.  It reads the program headers below `read`
      (all of them on success), each after its bounds test; they all lie in the image exactly if the
      table is not astray. */
  method LoadElf(m: Machine, root: nat, img: Image) returns (ok: bool, entry: nat, sz: nat, ghost read: nat)
    requires m.Valid() && SpaceOk(m.ram, m.Free(), root, m.first) && UserView(m.ram, root) == map[]
    requires |img.bytes| <= 0x800_0000
    modifies m, m.bitmap
    ensures m.Valid() && sz % 4096 == 0 && USER_BASE <= sz <= UART_0
    ensures Kept(old(m.ram), old(m.Free()), m.ram, m.Free(), root, m.first) && ImageIs(UserView(m.ram, root), sz)
    ensures ok ==> Loaded(UserView(m.ram, root), img, Phnum(img), sz) && entry == Entry(img)
    ensures ok <==> Accepted(img) && !Short(old(m.ram), old(m.Free()), root, 1, ImageEnd(img))
    ensures ok ==> sz == PageUp(EndFrom(img, 0, USER_BASE))
    ensures ok ==> TableSet(m.ram, root) == old(TableSet(m.ram, root)) + Regions(1, ImageEnd(img))
    ensures forall i: nat :: i < read ==> Reached(img, i)
    ensures ok ==> read == Phnum(img)
    ensures (forall i: nat :: i < read ==> HeaderInside(img, i)) <==> !(HeaderOk(img) && Astray(img))
  {
    ghost var ram0, free0 := m.ram, m.Free();
    ok, entry, sz, read := false, 0, USER_BASE, 0;
    if !HeaderOk(img) {
      ProgressStart(m.ram, m.Free(), root, m.first, img);
      return;
    }
    var size;
    ok, size, read := LoadHeaders(m, root, img, FactsOf(img), ram0, free0);
    LoadEnds(ram0, free0, m.ram, m.Free(), root, m.first, img, size, read, ok);
    sz, entry := PageUp(size), Entry(img);
  }

  /** What the end of the loop means for the caller. */
  lemma LoadEnds(ram0: Ram, free0: set<nat>, ram: Ram, free: set<nat>, root: nat, first: nat, img: Image, size: nat,
                 read: nat, ok: bool)
    requires SpaceOk(ram0, free0, root, first) && AllRam(ram0) && AllRam(ram) && RAM_FIRST <= first
    requires UserView(ram0, root) == map[]
    requires HeaderOk(img) && |img.bytes| <= 0x800_0000 && USER_BASE <= size <= UART_0
    requires Kept(ram0, free0, ram, free, root, first) && ImageIs(UserView(ram, root), size)
    requires ok ==> EndFrom(img, 0, USER_BASE) == size && read == Phnum(img)
    requires ok ==> Progress(ram0, free0, ram, free, root, first, img, read, size)
    requires !ok ==> CannotLoad(FactsOf(img), ram0, free0, root)
    requires ReadUpTo(img, FactsOf(img), read)
    ensures ImageIs(UserView(ram, root), PageUp(size)) && PageUp(size) % 4096 == 0
    ensures USER_BASE <= PageUp(size) <= UART_0
    ensures ok ==> Loaded(UserView(ram, root), img, Phnum(img), PageUp(size))
    ensures ok <==> Accepted(img) && !Short(ram0, free0, root, 1, ImageEnd(img))
    ensures ok ==> TableSet(ram, root) == TableSet(ram0, root) + Regions(1, ImageEnd(img))
    ensures forall i: nat :: i < read ==> Reached(img, i)
    ensures (forall i: nat :: i < read ==> HeaderInside(img, i)) <==> !Astray(img)
  {
    WholePages(UserView(ram, root), img, Phnum(img), size);
    ReadsInside(img, read);
    if ok {
      ImageCost(ram0, free0, ram, free, root, first, size);
    }
  }
}

/** kernel/vm.c: moving bytes between the kernel and a user address space. */
module UserCopy {
  import opened Layout
  import opened PageTable
  import opened Memory
  import opened Space
  import opened UserSpace

  /** 32-bit addition. */
  function Plus(a: nat, n: nat): (r: nat)
    requires a < 0x1_0000_0000 && n <= 0x1_0000_0000
    ensures r < 0x1_0000_0000
  {
    if a + n >= 0x1_0000_0000 then a + n - 0x1_0000_0000 else a + n
  }

  /** How far a lies above b, around the top of the address space if need be. */
  function Dist(a: nat, b: nat): (r: nat)
    requires a < 0x1_0000_0000 && b < 0x1_0000_0000
    ensures r < 0x1_0000_0000
  {
    if a >= b then a - b else a + 0x1_0000_0000 - b
  }

  /** Address a is mapped for the user, with permission `need` (0 for none). */
  ghost predicate Allows(view: View, a: nat, need: nat) {
    a / 4096 in view && (need != 0 ==> HasBit(view[a / 4096].flags, need))
  }

  ghost function ByteAt(view: View, a: nat): Byte
    requires a / 4096 in view
  {
    view[a / 4096].bytes[a % 4096]
  }

  /** The n bytes from va on all allow `need`. */
  ghost predicate RangeAllows(view: View, va: nat, n: nat, need: nat)
    requires va < 0x1_0000_0000 && n <= 0x1_0000_0000
  {
    forall i :: 0 <= i < n ==> Allows(view, Plus(va, i), need)
  }

  // ---------------------------------------------------------------- find_user_pa

  /** find_user_pa: the physical address of va, or 0. */
  function FindUserPa(ram: Ram, root: nat, va: nat, need: nat): nat
    requires root in ram && va < 0x1_0000_0000
  {
    var t := TableFor(ram, root, va / 4096);
    if t == 0 || t !in ram then 0
    else
      var e := Word(ram[t], va / 4096 % 1024);
      if IsValid(e) && HasBit(e, PTE_U) && (need == 0 || HasBit(e, need)) then PteToPa(e) + va % 4096 else 0
  }

  lemma FlagBits(e: nat)
    ensures HasBit(PteFlags(e), PTE_R) == HasBit(e, PTE_R)
    ensures HasBit(PteFlags(e), PTE_W) == HasBit(e, PTE_W)
  {
    var q, r := e / 1024, e % 1024;
    assert e / 2 == q * 512 + r / 2;
    assert e / 4 == e / 2 / 2 && r / 4 == r / 2 / 2;
    HalvedBits(q, r / 2);
  }

  lemma PageOffset(p: nat, va: nat)
    ensures (p * 4096 + va % 4096) / 4096 == p && (p * 4096 + va % 4096) % 4096 == va % 4096
  {
  }

  /** find_user_pa agrees with the user's view: it translates exactly the addresses the user may use so,
      to the page the flat map names. */
  lemma FindUserPaIs(ram: Ram, free: set<nat>, root: nat, first: nat, va: nat, need: nat)
    requires SpaceOk(ram, free, root, first) && AllRam(ram) && RAM_FIRST <= first && va < 0x1_0000_0000
    requires need in {0, PTE_R, PTE_W}
    ensures var pa := FindUserPa(ram, root, va, need);
            && (pa == 0 <==> !Allows(UserView(ram, root), va, need))
            && (pa != 0 ==> var v, flat := va / 4096, Flat(ram, root);
                            v in flat && UserVpn(v) && pa / 4096 == Ppn(flat[v]) && pa % 4096 == va % 4096
                            && Ppn(flat[v]) in ram && ram[Ppn(flat[v])] == UserView(ram, root)[v].bytes)
  {
    var v, flat := va / 4096, Flat(ram, root);
    TableForIs(ram, root, v);
    ViewKeys(flat, Tables(ram, root), free, first, ram);
    if v in flat {
      var e := flat[v];
      FlagBits(e);
      if UserVpn(v) {
        AddressOf(e);
        PageOffset(Ppn(e), va);
        assert InRam(Ppn(e));
      }
    }
  }

  // ---------------------------------------------------------------- writing through a view

  /** The byte at address a, which was x before, after bytes were written from address va on. */
  function WrittenByte(x: Byte, a: nat, va: nat, bytes: seq<Byte>): Byte
    requires va < 0x1_0000_0000 && a < 0x1_0000_0000
  {
    if Dist(a, va) < |bytes| then bytes[Dist(a, va)] else x
  }

  /** Page contents p at address base after bytes were written from address va on. */
  function WrittenPage(p: Page, base: nat, va: nat, bytes: seq<Byte>): (q: Page)
    requires va < 0x1_0000_0000 && base + 4096 <= 0x1_0000_0000
    ensures forall i :: 0 <= i < 4096 ==> q[i] == WrittenByte(p[i], base + i, va, bytes)
  {
    seq(4096, i requires 0 <= i < 4096 => WrittenByte(p[i], base + i, va, bytes))
  }

  /** A view after bytes were written from address va on. */
  ghost function Written(view: View, va: nat, bytes: seq<Byte>): View
    requires va < 0x1_0000_0000
  {
    map v | v in view && v < VPNS :: UserPage(view[v].flags, WrittenPage(view[v].bytes, v * 4096, va, bytes))
  }

  ghost predicate ViewOk(view: View) {
    forall v :: v in view ==> v < VPNS
  }

  lemma WrittenNone(view: View, va: nat)
    requires va < 0x1_0000_0000 && ViewOk(view)
    ensures Written(view, va, []) == view
  {
    forall v | v in view
      ensures WrittenPage(view[v].bytes, v * 4096, va, []) == view[v].bytes
    {
    }
  }

  lemma WrittenPageTwice(p: Page, base: nat, va: nat, a: seq<Byte>, b: seq<Byte>)
    requires va < 0x1_0000_0000 && base + 4096 <= 0x1_0000_0000 && |a| + |b| <= 0x1_0000_0000
    ensures WrittenPage(WrittenPage(p, base, va, a), base, Plus(va, |a|), b) == WrittenPage(p, base, va, a + b)
  {
    var q, q' := WrittenPage(WrittenPage(p, base, va, a), base, Plus(va, |a|), b), WrittenPage(p, base, va, a + b);
    forall i | 0 <= i < 4096
      ensures q[i] == q'[i]
    {
      var d := Dist(base + i, va);
      assert Dist(base + i, Plus(va, |a|)) == if d >= |a| then d - |a| else d + 0x1_0000_0000 - |a|;
    }
  }

  /** Writing twice in a row is writing once. */
  lemma WrittenTwice(view: View, va: nat, a: seq<Byte>, b: seq<Byte>)
    requires va < 0x1_0000_0000 && |a| + |b| <= 0x1_0000_0000
    ensures Written(Written(view, va, a), Plus(va, |a|), b) == Written(view, va, a + b)
  {
    forall v | v in view && v < VPNS
      ensures Written(Written(view, va, a), Plus(va, |a|), b)[v] == Written(view, va, a + b)[v]
    {
      WrittenPageTwice(view[v].bytes, v * 4096, va, a, b);
    }
  }

  lemma WrittenInPage(p: Page, v: nat, va: nat, bytes: seq<Byte>)
    requires va < 0x1_0000_0000 && v < VPNS && va % 4096 + |bytes| <= 4096
    ensures WrittenPage(p, v * 4096, va, bytes) == if v == va / 4096 then Blit(p, va % 4096, bytes) else p
  {
    var w, off, q := va / 4096, va % 4096, WrittenPage(p, v * 4096, va, bytes);
    assert va == w * 4096 + off;
    forall i | 0 <= i < 4096
      ensures q[i] == if v == w && off <= i < off + |bytes| then bytes[i - off] else p[i]
    {
    }
  }

  /** Memory changed only in user pages of the space. */
  ghost predicate Overwritten(ram: Ram, ram': Ram, free: set<nat>, root: nat, first: nat)
    requires root in ram
  {
    && SpaceOk(ram', free, root, first)
    && Flat(ram', root) == Flat(ram, root) && Tables(ram', root) == Tables(ram, root)
    && TableSet(ram', root) == TableSet(ram, root)
    && SameOutside(ram, ram', Owned(Flat(ram, root)))
  }

  lemma OverwrittenTrans(ram0: Ram, ram1: Ram, ram2: Ram, free: set<nat>, root: nat, first: nat)
    requires root in ram0 && Overwritten(ram0, ram1, free, root, first) && Overwritten(ram1, ram2, free, root, first)
    ensures Overwritten(ram0, ram2, free, root, first)
  {
  }

  lemma ViewStored(flat: map<nat, nat>, tables: set<nat>, free: set<nat>, first: nat, ram: Ram, ram': Ram, va: nat,
                   bytes: seq<Byte>)
    requires FlatOk(flat, tables, free, first) && AllRam(ram) && RAM_FIRST <= first
    requires va < 0x1_0000_0000 && va % 4096 + |bytes| <= 4096 && va / 4096 in flat && UserVpn(va / 4096)
    requires forall v :: v in flat ==> v < VPNS
    requires ram' == var p := Ppn(flat[va / 4096]); if p in ram then ram[p := Blit(ram[p], va % 4096, bytes)] else ram
    ensures ViewOf(flat, ram') == Written(ViewOf(flat, ram), va, bytes)
  {
    ViewKeys(flat, tables, free, first, ram);
    ViewKeys(flat, tables, free, first, ram');
    forall v | v in flat && UserVpn(v)
      ensures ViewOf(flat, ram')[v] == Written(ViewOf(flat, ram), va, bytes)[v]
    {
      WrittenInPage(ram[Ppn(flat[v])], v, va, bytes);
    }
  }

  /** Storing bytes into the physical page behind va writes them into the view. */
  lemma Stored(ram: Ram, ram': Ram, free: set<nat>, root: nat, first: nat, va: nat, bytes: seq<Byte>)
    requires SpaceOk(ram, free, root, first) && AllRam(ram) && RAM_FIRST <= first
    requires va < 0x1_0000_0000 && va % 4096 + |bytes| <= 4096
    requires va / 4096 in Flat(ram, root) && UserVpn(va / 4096)
    requires var p := Ppn(Flat(ram, root)[va / 4096]);
             ram' == if p in ram then ram[p := Blit(ram[p], va % 4096, bytes)] else ram
    ensures Overwritten(ram, ram', free, root, first)
    ensures UserView(ram', root) == Written(UserView(ram, root), va, bytes)
  {
    var flat := Flat(ram, root);
    assert Ppn(flat[va / 4096]) in Owned(flat);
    TreeFrame(ram, ram', root);
    ViewStored(flat, Tables(ram, root), free, first, ram, ram', va, bytes);
  }

  // ---------------------------------------------------------------- copyout, and load_segment's copy

  lemma Chunk(va: nat, n: nat, need: nat, view: View)
    requires va < 0x1_0000_0000 && va % 4096 + n <= 4096
    ensures Allows(view, va, need) ==> RangeAllows(view, va, n, need)
  {
    forall i | 0 <= i < n
      ensures Plus(va, i) / 4096 == va / 4096 && Plus(va, i) % 4096 == va % 4096 + i
    {
      SamePage(va, i);
    }
  }

  lemma SamePage(va: nat, i: nat)
    requires va < 0x1_0000_0000 && va % 4096 + i < 4096
    ensures Plus(va, i) / 4096 == va / 4096 && Plus(va, i) % 4096 == va % 4096 + i
  {
  }

  lemma PlusPlus(va: nat, a: nat, b: nat)
    requires va < 0x1_0000_0000 && a + b <= 0x1_0000_0000
    ensures Plus(Plus(va, a), b) == Plus(va, a + b)
  {
  }

  lemma RangeJoin(view: View, va: nat, a: nat, b: nat, need: nat)
    requires va < 0x1_0000_0000 && a + b <= 0x1_0000_0000
    requires RangeAllows(view, va, a, need) && RangeAllows(view, Plus(va, a), b, need)
    ensures RangeAllows(view, va, a + b, need)
  {
    forall i | 0 <= i < a + b
      ensures Allows(view, Plus(va, i), need)
    {
      if i >= a {
        PlusPlus(va, a, i - a);
      }
    }
  }

  lemma WrittenAllows(view: View, va: nat, bytes: seq<Byte>, a: nat, need: nat)
    requires va < 0x1_0000_0000 && ViewOk(view)
    ensures Allows(Written(view, va, bytes), a, need) == Allows(view, a, need)
  {
  }

  /** src[..k] has been written from va on: every byte where it was allowed. */
  ghost predicate Sent(ram: Ram, ram': Ram, free: set<nat>, root: nat, first: nat, va: nat, bytes: seq<Byte>, need: nat)
    requires root in ram && va < 0x1_0000_0000 && |bytes| <= 0x1_0000_0000
  {
    && Overwritten(ram, ram', free, root, first)
    && UserView(ram', root) == Written(UserView(ram, root), va, bytes)
    && RangeAllows(UserView(ram, root), va, |bytes|, need)
  }

  lemma ViewIsOk(ram: Ram, root: nat)
    requires root in ram
    ensures ViewOk(UserView(ram, root))
  {
  }

  lemma SentNone(ram: Ram, free: set<nat>, root: nat, first: nat, va: nat, none: seq<Byte>, need: nat)
    requires SpaceOk(ram, free, root, first) && va < 0x1_0000_0000 && none == []
    ensures Sent(ram, ram, free, root, first, va, none, need)
  {
    WrittenNone(UserView(ram, root), va);
  }

  lemma SentJoin(ram0: Ram, ram1: Ram, ram2: Ram, free: set<nat>, root: nat, first: nat, va: nat, a: seq<Byte>,
                 b: seq<Byte>, need: nat)
    requires root in ram0 && va < 0x1_0000_0000 && |a| + |b| <= 0x1_0000_0000
    requires Sent(ram0, ram1, free, root, first, va, a, need)
    requires Sent(ram1, ram2, free, root, first, Plus(va, |a|), b, need)
    ensures Sent(ram0, ram2, free, root, first, va, a + b, need)
  {
    var view := UserView(ram0, root);
    ViewIsOk(ram0, root);
    OverwrittenTrans(ram0, ram1, ram2, free, root, first);
    WrittenTwice(view, va, a, b);
    forall i | 0 <= i < |b|
      ensures Allows(view, Plus(Plus(va, |a|), i), need)
    {
      WrittenAllows(view, va, a, Plus(Plus(va, |a|), i), need);
    }
    RangeJoin(view, va, |a|, |b|, need);
  }

  lemma SentAllows(ram: Ram, ram': Ram, free: set<nat>, root: nat, first: nat, va: nat, bytes: seq<Byte>, need: nat,
                   a: nat)
    requires root in ram && va < 0x1_0000_0000 && |bytes| <= 0x1_0000_0000
    requires Sent(ram, ram', free, root, first, va, bytes, need)
    ensures Allows(UserView(ram', root), a, need) == Allows(UserView(ram, root), a, need)
  {
    ViewIsOk(ram, root);
    WrittenAllows(UserView(ram, root), va, bytes, a, need);
  }

  /** One round: as many bytes as fit in the page of va. */
  method SendChunk(m: Machine, root: nat, va: nat, src: seq<Byte>, need: nat, ghost free: set<nat>) returns (n: nat)
    requires m.Valid() && m.Free() == free && SpaceOk(m.ram, free, root, m.first) && va < 0x1_0000_0000 && 0 < |src|
    requires need in {0, PTE_R, PTE_W}
    modifies m`ram
    ensures m.Valid() && n <= |src| && n <= 4096 && (n == 0 <==> !Allows(old(UserView(m.ram, root)), va, need))
    ensures n == 0 ==> m.ram == old(m.ram)
    ensures n > 0 ==> Sent(old(m.ram), m.ram, free, root, m.first, va, src[..n], need)
  {
    ghost var ram0 := m.ram;
    var pa := FindUserPa(m.ram, root, va, need);
    FindUserPaIs(m.ram, free, root, m.first, va, need);
    if pa == 0 {
      return 0;
    }
    n := 4096 - pa % 4096;
    if n > |src| {
      n := |src|;
    }
    m.Store(pa, src[..n]);
    Stored(ram0, m.ram, free, root, m.first, va, src[..n]);
    Chunk(va, n, need, UserView(ram0, root));
  }

  lemma SliceStep(src: seq<Byte>, done: nat, n: nat)
    requires done + n <= |src|
    ensures src[..done] + src[done..][..n] == src[..done + n] && src[done..][n..] == src[done + n..]
  {
  }

  lemma SentStep(ram0: Ram, ram1: Ram, ram2: Ram, free: set<nat>, root: nat, first: nat, va: nat, src: seq<Byte>,
                 done: nat, n: nat, need: nat)
    requires root in ram0 && va < 0x1_0000_0000 && done + n <= |src| < 0x1_0000_0000
    requires Sent(ram0, ram1, free, root, first, va, src[..done], need)
    requires Sent(ram1, ram2, free, root, first, Plus(va, done), src[done..][..n], need)
    ensures Sent(ram0, ram2, free, root, first, va, src[..done + n], need)
    ensures Plus(Plus(va, done), n) == Plus(va, done + n) && src[done..][n..] == src[done + n..]
  {
    SliceStep(src, done, n);
    PlusPlus(va, done, n);
    SentJoin(ram0, ram1, ram2, free, root, first, va, src[..done], src[done..][..n], need);
  }

  /** One round in the middle of a copy. */
  method SendNext(m: Machine, root: nat, curr: nat, src: seq<Byte>, done: nat, need: nat,
                  ghost ram0: Ram, ghost free: set<nat>, ghost va: nat) returns (n: nat)
    requires m.Valid() && m.Free() == free && root in ram0 && va < 0x1_0000_0000 && done < |src| < 0x1_0000_0000
    requires need in {0, PTE_R, PTE_W} && curr == Plus(va, done)
    requires Sent(ram0, m.ram, free, root, m.first, va, src[..done], need)
    modifies m`ram
    ensures m.Valid() && m.Free() == free && done + n <= |src|
    ensures n == 0 ==> m.ram == old(m.ram) && !Allows(UserView(ram0, root), Plus(va, done), need)
    ensures n > 0 ==> Sent(ram0, m.ram, free, root, m.first, va, src[..done + n], need)
    ensures n > 0 ==> Plus(curr, n) == Plus(va, done + n)
  {
    ghost var ram1 := m.ram;
    SentAllows(ram0, ram1, free, root, m.first, va, src[..done], need, curr);
    n := SendChunk(m, root, curr, src[done..], need, free);
    if n > 0 {
      SentStep(ram0, ram1, m.ram, free, root, m.first, va, src, done, n, need);
    }
  }

  /** The loop copyout and load_segment share: writes a prefix of src, up to the first address that does
      not allow it. */
  method Send(m: Machine, root: nat, va: nat, src: seq<Byte>, need: nat) returns (ok: bool, ghost sent: nat)
    requires m.Valid() && SpaceOk(m.ram, m.Free(), root, m.first) && va < 0x1_0000_0000 && |src| < 0x1_0000_0000
    requires need in {0, PTE_R, PTE_W}
    modifies m`ram
    ensures m.Valid() && sent <= |src| && (ok <==> sent == |src|)
    ensures Sent(old(m.ram), m.ram, m.Free(), root, m.first, va, src[..sent], need)
    ensures !ok ==> !Allows(old(UserView(m.ram, root)), Plus(va, sent), need)
  {
    ghost var ram0, free := m.ram, m.Free();
    var done, curr := 0, va;
    SentNone(ram0, free, root, m.first, va, src[..done], need);
    while done < |src|
      invariant m.Valid() && m.Free() == free && done <= |src| && curr == Plus(va, done)
      invariant Sent(ram0, m.ram, free, root, m.first, va, src[..done], need)
    {
      var n := SendNext(m, root, curr, src, done, need, ram0, free, va);
      if n == 0 {
        return false, done;
      }
      curr := Plus(curr, n);
      done := done + n;
      assert Sent(ram0, m.ram, free, root, m.first, va, src[..done], need);
    }
    ok, sent := true, done;
  }

  /** copyout: writes src into the user's memory at va if all of it is writable there; otherwise only
      the part below the first address that is not. */
  method CopyOut(m: Machine, root: nat, va: nat, src: seq<Byte>) returns (ok: bool, ghost done: nat)
    requires m.Valid() && SpaceOk(m.ram, m.Free(), root, m.first) && va < 0x1_0000_0000 && |src| < 0x1_0000_0000
    modifies m`ram
    ensures m.Valid() && done <= |src| && (ok <==> done == |src|)
    ensures ok <==> RangeAllows(old(UserView(m.ram, root)), va, |src|, PTE_W)
    ensures Overwritten(old(m.ram), m.ram, m.Free(), root, m.first)
    ensures UserView(m.ram, root) == Written(old(UserView(m.ram, root)), va, src[..done])
    ensures ok ==> UserView(m.ram, root) == Written(old(UserView(m.ram, root)), va, src)
  {
    ok, done := Send(m, root, va, src, PTE_W);
    assert ok ==> src[..done] == src;
  }

  // ---------------------------------------------------------------- copyin and copyinstr

  /** Through root, find_user_pa finds exactly the readable bytes of the view. */
  ghost predicate Reads(ram: Ram, root: nat, view: View) {
    && root in ram
    && forall va :: 0 <= va < 0x1_0000_0000 ==>
         var pa := FindUserPa(ram, root, va, PTE_R);
         && (pa == 0 <==> !Allows(view, va, PTE_R))
         && (pa != 0 ==> pa % 4096 == va % 4096 && pa / 4096 in ram && ram[pa / 4096] == view[va / 4096].bytes)
  }

  lemma SpaceReads(ram: Ram, free: set<nat>, root: nat, first: nat)
    requires SpaceOk(ram, free, root, first) && AllRam(ram) && RAM_FIRST <= first
    ensures Reads(ram, root, UserView(ram, root))
  {
    var view := UserView(ram, root);
    forall va | 0 <= va < 0x1_0000_0000
      ensures var pa := FindUserPa(ram, root, va, PTE_R);
              && (pa == 0 <==> !Allows(view, va, PTE_R))
              && (pa != 0 ==> pa % 4096 == va % 4096 && pa / 4096 in ram && ram[pa / 4096] == view[va / 4096].bytes)
    {
      FindUserPaIs(ram, free, root, first, va, PTE_R);
    }
  }

  /** dst[at..] holds the n bytes the user has at va. */
  ghost predicate Fetched(view: View, va: nat, dst: seq<Byte>, at: nat, n: nat)
    requires va < 0x1_0000_0000 && n <= 0x1_0000_0000 && at + n <= |dst|
  {
    && RangeAllows(view, va, n, PTE_R)
    && forall i :: 0 <= i < n ==> dst[at + i] == ByteAt(view, Plus(va, i))
  }

  /** dst and dst' agree outside [at, at + n). */
  ghost predicate Around(dst: seq<Byte>, dst': seq<Byte>, at: nat, n: nat) {
    && |dst'| == |dst|
    && forall i :: 0 <= i < |dst| && !(at <= i < at + n) ==> dst'[i] == dst[i]
  }

  lemma AroundTrans(b0: seq<Byte>, b1: seq<Byte>, b2: seq<Byte>, at: nat, a: nat, b: nat, c: nat)
    requires Around(b0, b1, at, a) && Around(b1, b2, at + a, b) && c == a + b
    ensures Around(b0, b2, at, c)
  {
  }

  /** memmove from a RAM page into a kernel buffer. */
  method Fill(dst: array<Byte>, at: nat, src: seq<Byte>)
    requires at + |src| <= dst.Length
    modifies dst
    ensures dst[at..at + |src|] == src && Around(old(dst[..]), dst[..], at, |src|)
  {
    var i := 0;
    while i < |src|
      invariant 0 <= i <= |src|
      invariant forall j :: 0 <= j < i ==> dst[at + j] == src[j]
      invariant forall j :: 0 <= j < dst.Length && !(at <= j < at + i) ==> dst[j] == old(dst[j])
    {
      dst[at + i] := src[i];
      i := i + 1;
    }
  }

  /** The bytes of va's page from va on, as the user sees them. */
  lemma PageBytes(view: View, va: nat, page: Page, n: nat, buf: seq<Byte>, at: nat)
    requires va < 0x1_0000_0000 && va % 4096 + n <= 4096 && at + n <= |buf|
    requires Allows(view, va, PTE_R) && view[va / 4096].bytes == page
    requires buf[at..at + n] == page[va % 4096..va % 4096 + n]
    ensures Fetched(view, va, buf, at, n)
  {
    Chunk(va, n, PTE_R, view);
    forall i | 0 <= i < n
      ensures buf[at + i] == ByteAt(view, Plus(va, i))
    {
      SamePage(va, i);
      assert buf[at + i] == buf[at..at + n][i];
    }
  }

  lemma FetchedJoin(view: View, va: nat, buf0: seq<Byte>, buf1: seq<Byte>, at: nat, a: nat, b: nat, c: nat)
    requires c == a + b && va < 0x1_0000_0000 && a + b <= 0x1_0000_0000 && at + a + b <= |buf0|
    requires Fetched(view, va, buf0, at, a) && Around(buf0, buf1, at + a, b)
    requires Fetched(view, Plus(va, a), buf1, at + a, b)
    ensures Fetched(view, va, buf1, at, c) && Plus(Plus(va, a), b) == Plus(va, c)
  {
    PlusPlus(va, a, b);
    RangeJoin(view, va, a, b, PTE_R);
    forall i | 0 <= i < a + b
      ensures buf1[at + i] == ByteAt(view, Plus(va, i))
    {
      if i >= a {
        PlusPlus(va, a, i - a);
        assert buf1[(at + a) + (i - a)] == ByteAt(view, Plus(Plus(va, a), i - a));
      }
    }
  }

  /** One round of copyin: as many bytes as the page of va has, at most len. */
  method FetchChunk(ram: Ram, root: nat, ghost view: View, dst: array<Byte>, at: nat, va: nat, len: nat)
    returns (n: nat)
    requires Reads(ram, root, view) && va < 0x1_0000_0000 && 0 < len && at + len <= dst.Length
    modifies dst
    ensures n <= len && n <= 4096 && (n == 0 <==> !Allows(view, va, PTE_R))
    ensures Around(old(dst[..]), dst[..], at, n)
    ensures n > 0 ==> Fetched(view, va, dst[..], at, n)
  {
    var pa := FindUserPa(ram, root, va, PTE_R);
    if pa == 0 {
      return 0;
    }
    n := 4096 - pa % 4096;
    if n > len {
      n := len;
    }
    var page := ram[pa / 4096];
    Fill(dst, at, page[pa % 4096..pa % 4096 + n]);
    assert dst[..][at..at + n] == dst[at..at + n];
    PageBytes(view, va, page, n, dst[..], at);
  }

  /** The loop of copyin. */
  method Fetch(ram: Ram, root: nat, ghost view: View, dst: array<Byte>, at: nat, src: nat, len: nat) returns (ok: bool)
    requires Reads(ram, root, view) && src < 0x1_0000_0000 && len < 0x1_0000_0000 && at + len <= dst.Length
    modifies dst
    ensures ok <==> RangeAllows(view, src, len, PTE_R)
    ensures ok ==> Fetched(view, src, dst[..], at, len)
    ensures Around(old(dst[..]), dst[..], at, len)
  {
    var done, va := 0, src;
    while done < len
      invariant done <= len && va == Plus(src, done)
      invariant Fetched(view, src, dst[..], at, done) && Around(old(dst[..]), dst[..], at, done)
    {
      ghost var buf := dst[..];
      var n := FetchChunk(ram, root, view, dst, at + done, va, len - done);
      if n == 0 {
        assert !Allows(view, Plus(src, done), PTE_R);
        return false;
      }
      var done' := done + n;
      AroundTrans(old(dst[..]), buf, dst[..], at, done, n, done');
      FetchedJoin(view, src, buf, dst[..], at, done, n, done');
      va := Plus(va, n);
      done := done';
    }
    ok := true;
  }

  /** copyin: fetches len bytes exactly if all of them are readable; nothing beyond them is written. */
  method CopyIn(m: Machine, root: nat, dst: array<Byte>, at: nat, src: nat, len: nat) returns (ok: bool)
    requires m.Valid() && SpaceOk(m.ram, m.Free(), root, m.first)
    requires src < 0x1_0000_0000 && len < 0x1_0000_0000 && at + len <= dst.Length
    modifies dst
    ensures ok <==> RangeAllows(UserView(m.ram, root), src, len, PTE_R)
    ensures ok ==> Fetched(UserView(m.ram, root), src, dst[..], at, len)
    ensures Around(old(dst[..]), dst[..], at, len)
  {
    SpaceReads(m.ram, m.Free(), root, m.first);
    ok := Fetch(m.ram, root, UserView(m.ram, root), dst, at, src, len);
  }

  /** The user has a string of k bytes and its NUL at va, all readable. */
  ghost predicate StringAt(view: View, va: nat, k: nat)
    requires va < 0x1_0000_0000 && k < 0x1_0000_0000
  {
    && RangeAllows(view, va, k + 1, PTE_R)
    && (forall i :: 0 <= i < k ==> ByteAt(view, Plus(va, i)) != 0)
    && ByteAt(view, Plus(va, k)) == 0
  }

  /** k bytes fetched so far, none of them NUL. */
  ghost predicate Scanned(view: View, va: nat, dst: seq<Byte>, at: nat, k: nat)
    requires va < 0x1_0000_0000 && k <= 0x1_0000_0000 && at + k <= |dst|
  {
    Fetched(view, va, dst, at, k) && forall i :: 0 <= i < k ==> ByteAt(view, Plus(va, i)) != 0
  }

  lemma ScannedMore(view: View, va: nat, buf: seq<Byte>, at: nat, k: nat, x: Byte)
    requires va < 0x1_0000_0000 && k < 0x1_0000_0000 && at + k < |buf| && Scanned(view, va, buf, at, k)
    requires Allows(view, Plus(va, k), PTE_R) && x == ByteAt(view, Plus(va, k))
    ensures Fetched(view, va, buf[at + k := x], at, k + 1)
    ensures x != 0 ==> Scanned(view, va, buf[at + k := x], at, k + 1)
    ensures x == 0 ==> StringAt(view, va, k)
  {
  }

  /** Where a string ends is determined by the view. */
  lemma NoString(view: View, va: nat, buf: seq<Byte>, at: nat, n: nat, max: nat)
    requires va < 0x1_0000_0000 && n <= max < 0x1_0000_0000 && at + n <= |buf| && Scanned(view, va, buf, at, n)
    requires n == max || !Allows(view, Plus(va, n), PTE_R)
    ensures forall k :: 0 <= k < max ==> !StringAt(view, va, k)
  {
    forall k | 0 <= k < max
      ensures !StringAt(view, va, k)
    {
    }
  }

  /** The inner loop of copyinstr: scans n bytes of one page. */
  method ScanPage(dst: array<Byte>, at: nat, page: Page, off: nat, n: nat, ghost view: View, ghost va: nat, k: nat)
    returns (nul: bool, j: nat)
    requires va < 0x1_0000_0000 && k + n < 0x1_0000_0000 && 0 < n && off + n <= 4096 && at + k + n <= dst.Length
    requires Scanned(view, va, dst[..], at, k)
    requires forall i :: k <= i < k + n ==>
               Allows(view, Plus(va, i), PTE_R) && ByteAt(view, Plus(va, i)) == page[off + i - k]
    modifies dst
    ensures Around(old(dst[..]), dst[..], at, k + n)
    ensures !nul ==> j == n && Scanned(view, va, dst[..], at, k + n)
    ensures nul ==> j < n && StringAt(view, va, k + j) && Fetched(view, va, dst[..], at, k + j + 1)
  {
    j := 0;
    while j < n
      invariant 0 <= j <= n
      invariant Scanned(view, va, dst[..], at, k + j) && Around(old(dst[..]), dst[..], at, k + j)
    {
      ghost var buf := dst[..];
      var x := page[off + j];
      ScannedMore(view, va, buf, at, k + j, x);
      dst[at + k + j] := x;
      assert dst[..] == buf[at + (k + j) := x];
      if x == 0 {
        return true, j;
      }
      j := j + 1;
    }
    nul := false;
  }

  lemma PageAhead(view: View, va: nat, page: Page, k: nat, n: nat)
    requires va < 0x1_0000_0000 && k + n < 0x1_0000_0000 && Plus(va, k) % 4096 + n <= 4096
    requires Allows(view, Plus(va, k), PTE_R) && view[Plus(va, k) / 4096].bytes == page
    ensures forall i :: k <= i < k + n ==>
              Allows(view, Plus(va, i), PTE_R) && ByteAt(view, Plus(va, i)) == page[Plus(va, k) % 4096 + i - k]
  {
    forall i | k <= i < k + n
      ensures Allows(view, Plus(va, i), PTE_R) && ByteAt(view, Plus(va, i)) == page[Plus(va, k) % 4096 + i - k]
    {
      PlusPlus(va, k, i - k);
      SamePage(Plus(va, k), i - k);
    }
  }

  /** One round of copyinstr's outer loop; n == 0 if the page of va is not readable. */
  method ScanChunk(ram: Ram, root: nat, ghost view: View, dst: array<Byte>, at: nat, va: nat, k: nat, max: nat,
                   ghost src: nat)
    returns (n: nat, nul: bool, j: nat)
    requires Reads(ram, root, view)
    requires src < 0x1_0000_0000 && k < max < 0x1_0000_0000 && at + max <= dst.Length && va == Plus(src, k)
    requires Scanned(view, src, dst[..], at, k)
    modifies dst
    ensures k + n <= max && Around(old(dst[..]), dst[..], at, max)
    ensures n == 0 ==> !nul && !Allows(view, va, PTE_R) && Scanned(view, src, dst[..], at, k)
    ensures n > 0 && !nul ==> Scanned(view, src, dst[..], at, k + n) && Plus(va, n) == Plus(src, k + n)
    ensures nul ==> k + j < max && StringAt(view, src, k + j) && Fetched(view, src, dst[..], at, k + j + 1)
  {
    var pa := FindUserPa(ram, root, va, PTE_R);
    if pa == 0 {
      return 0, false, 0;
    }
    n := 4096 - pa % 4096;
    if n > max - k {
      n := max - k;
    }
    var page := ram[pa / 4096];
    PageAhead(view, src, page, k, n);
    PlusPlus(src, k, n);
    nul, j := ScanPage(dst, at, page, pa % 4096, n, view, src, k);
  }

  /** The loop of copyinstr. */
  method Scan(ram: Ram, root: nat, ghost view: View, dst: array<Byte>, at: nat, src: nat, max: nat)
    returns (ok: bool, ghost len: nat)
    requires Reads(ram, root, view) && src < 0x1_0000_0000 && max < 0x1_0000_0000 && at + max <= dst.Length
    modifies dst
    ensures Around(old(dst[..]), dst[..], at, max)
    ensures ok ==> len < max && StringAt(view, src, len) && Fetched(view, src, dst[..], at, len + 1)
    ensures !ok ==> forall k :: 0 <= k < max ==> !StringAt(view, src, k)
  {
    ghost var buf := dst[..];
    var k, va := 0, src;
    while k < max
      invariant k <= max && va == Plus(src, k)
      invariant Scanned(view, src, dst[..], at, k) && Around(buf, dst[..], at, max)
    {
      var n, nul, j := ScanChunk(ram, root, view, dst, at, va, k, max, src);
      if n == 0 {
        NoString(view, src, dst[..], at, k, max);
        return false, 0;
      }
      if nul {
        return true, k + j;
      }
      va := Plus(va, n);
      k := k + n;
      assert Scanned(view, src, dst[..], at, k);
    }
    NoString(view, src, dst[..], at, k, max);
    ok, len := false, 0;
  }

  /** copyinstr: fetches the user's string with its NUL exactly if there is one within max bytes. */
  method CopyInStr(m: Machine, root: nat, dst: array<Byte>, at: nat, src: nat, max: nat)
    returns (ok: bool, ghost len: nat)
    requires m.Valid() && SpaceOk(m.ram, m.Free(), root, m.first)
    requires src < 0x1_0000_0000 && max < 0x1_0000_0000 && at + max <= dst.Length
    modifies dst
    ensures Around(old(dst[..]), dst[..], at, max)
    ensures ok ==> len < max && StringAt(UserView(m.ram, root), src, len)
                   && Fetched(UserView(m.ram, root), src, dst[..], at, len + 1)
    ensures !ok ==> forall k :: 0 <= k < max ==> !StringAt(UserView(m.ram, root), src, k)
  {
    SpaceReads(m.ram, m.Free(), root, m.first);
    ok, len := Scan(m.ram, root, UserView(m.ram, root), dst, at, src, max);
  }
}

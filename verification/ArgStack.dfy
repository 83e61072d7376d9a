/** kexec of kernel/exec.c: copying the arguments onto the new stack. */
module ArgStack {
  import opened Layout
  import opened Memory
  import opened UserSpace
  import opened UserCopy
  import opened Loader
  import opened Args

  const STACK_BASE: nat := 0xFFFF_C000

  /** The view with new contents for its stack page. */
  ghost function WithPage(view: View, page: Page): View
    requires STACK_VPN in view
  {
    view[STACK_VPN := UserPage(view[STACK_VPN].flags, page)]
  }

  ghost function StackPage(view: View): Page
    requires STACK_VPN in view
  {
    view[STACK_VPN].bytes
  }

  lemma StackAddress(off: nat)
    requires off < 4096
    ensures (STACK_BASE + off) / 4096 == STACK_VPN && (STACK_BASE + off) % 4096 == off
  {
  }

  /** Bytes written within the stack page. */
  lemma WrittenStack(view: View, off: nat, bytes: seq<Byte>, sp: nat)
    requires sp == STACK_BASE + off && ViewOk(view) && STACK_VPN in view && off < 4096 && off + |bytes| <= 4096
    ensures Written(view, sp, bytes) == WithPage(view, Blit(StackPage(view), off, bytes))
  {
    StackAddress(off);
    forall v | v in view
      ensures Written(view, sp, bytes)[v] == WithPage(view, Blit(StackPage(view), off, bytes))[v]
    {
      WrittenInPage(view[v].bytes, v, sp, bytes);
    }
  }

  lemma StackWritable(view: View, off: nat, n: nat, sp: nat)
    requires sp == STACK_BASE + off && STACK_VPN in view && HasBit(view[STACK_VPN].flags, PTE_W) && off < 4096
    requires off + n <= 4096
    ensures RangeAllows(view, sp, n, PTE_W)
  {
    StackAddress(off);
    Chunk(sp, n, PTE_W, view);
  }

  /** copyout at sp, which is offset off of the stack page, cannot fail. */
  method PushBytes(m: Machine, root: nat, sp: nat, bytes: seq<Byte>, ghost off: nat, ghost free: set<nat>,
                   ghost view0: View)
    requires m.Valid() && m.Free() == free && SpaceOk(m.ram, free, root, m.first)
    requires UserView(m.ram, root) == view0 && STACK_VPN in view0 && HasBit(view0[STACK_VPN].flags, PTE_W)
    requires sp == STACK_BASE + off && off < 4096 && off + |bytes| <= 4096
    modifies m`ram
    ensures m.Valid() && m.Free() == free
    ensures Kept(old(m.ram), free, m.ram, free, root, m.first)
    ensures UserView(m.ram, root) == WithPage(view0, Blit(StackPage(view0), off, bytes))
  {
    ghost var ram0 := m.ram;
    ViewIsOk(ram0, root);
    StackWritable(view0, off, |bytes|, sp);
    WrittenStack(view0, off, bytes, sp);
    var ok;
    ghost var sent;
    ok, sent := CopyOut(m, root, sp, bytes);
    OverwrittenKept(ram0, m.ram, free, root, m.first);
  }

  /** From view0 to view, only the stack page changed, and it holds the strings pushed so far. */
  ghost predicate PushedView(view0: View, view: View, offs: seq<int>, argv: seq<Bytes>, low: int) {
    && STACK_VPN in view0 && STACK_VPN in view
    && view == WithPage(view0, StackPage(view))
    && StringsOn(StackPage(view), offs, argv, low)
  }

  lemma PushedNext(view0: View, view1: View, view2: View, offs: seq<int>, argv: seq<Bytes>, low: nat, s: Bytes,
                   bytes: Bytes, off: nat)
    requires PushedView(view0, view1, offs, argv, low) && low <= 4096 && off == Push(low, |s| + 1)
    requires bytes == s + [0] && off + |bytes| <= 4096 && view2 == WithPage(view1, Blit(StackPage(view1), off, bytes))
    ensures PushedView(view0, view2, offs + [off], argv + [s], off)
  {
    StringPushed(StackPage(view1), offs, argv, low, s, off);
  }

  ghost predicate Pushing(ram0: Ram, free: set<nat>, ram: Ram, root: nat, first: nat, offs: seq<int>,
                          argv: seq<Bytes>, low: int)
    requires root in ram0
  {
    Kept(ram0, free, ram, free, root, first) && PushedView(UserView(ram0, root), UserView(ram, root), offs, argv, low)
  }

  lemma PushingStart(ram: Ram, free: set<nat>, root: nat, first: nat, none: seq<Bytes>)
    requires SpaceOk(ram, free, root, first) && STACK_VPN in UserView(ram, root) && none == []
    ensures Pushing(ram, free, ram, root, first, [], none, 4096)
  {
  }

  /** kexec keeps sp as an address; off is its offset in the stack page.  sp -= n; sp &= ~0xF is Push, and the
      test sp < stackbase is the test for a negative offset. */
  lemma StackPointer(sp: nat, off: nat, n: nat, sp': nat)
    requires off <= 4096 && n <= 4097 && sp == STACK_BASE + off && sp' == (sp - n) / 16 * 16
    ensures sp' == STACK_BASE + Push(off, n) && (sp' < STACK_BASE <==> Push(off, n) < 0)
  {
  }

  /** The kernel page with the strings is none of the pages kexec may write. */
  lemma BufferKept(ram0: Ram, free: set<nat>, ram: Ram, root: nat, first: nat, b: nat)
    requires root in ram0 && Kept(ram0, free, ram, free, root, first) && b in ram0
    requires b !in free + SpacePages(ram0, root)
    ensures b in ram && ram[b] == ram0[b]
  {
  }

  /** Writes the string s, given with its NUL, at sp. */
  method PushString(m: Machine, root: nat, sp: nat, bytes: Bytes, ghost s: Bytes, ghost off: nat, ghost low: nat,
                    ghost ram0: Ram, ghost free: set<nat>, ghost offs: seq<int>, ghost argv: seq<Bytes>)
    requires m.Valid() && m.Free() == free && root in ram0 && low <= 4096 && off == Push(low, |s| + 1)
    requires sp == STACK_BASE + off && bytes == s + [0]
    requires Pushing(ram0, free, m.ram, root, m.first, offs, argv, low)
    requires HasBit(UserView(ram0, root)[STACK_VPN].flags, PTE_W)
    modifies m`ram
    ensures m.Valid() && m.Free() == free
    ensures Pushing(ram0, free, m.ram, root, m.first, offs + [off], argv + [s], off)
  {
    ghost var ram1, view0, view1 := m.ram, UserView(ram0, root), UserView(m.ram, root);
    assert |bytes| == |s| + 1;
    PushBytes(m, root, sp, bytes, off, free, view1);
    KeptTrans(ram0, free, ram1, free, m.ram, free, root, m.first);
    PushedNext(view0, view1, UserView(m.ram, root), offs, argv, low, s, bytes, off);
  }

  lemma PushSmall(off: nat, n: nat, next: int)
    requires off <= 4096 && n > 0 && next == Push(off, n)
    ensures next < off
  {
  }

  /** One round of kexec's argument loop: string k, read from the kernel page b, goes below sp. */
  method PushNext(m: Machine, root: nat, b: nat, start: nat, sp: nat, ghost argv: seq<Bytes>, ghost k: nat,
                  ghost k': nat, ghost off: nat, ghost used: nat, ghost ram0: Ram, ghost free: set<nat>,
                  ghost offs: seq<int>)
    returns (ok: bool, sp': nat, ghost next: nat)
    requires m.Valid() && m.Free() == free && root in ram0 && b in ram0 && b !in free + SpacePages(ram0, root)
    requires k < |argv| && k' == k + 1 && Holds(ram0[b], start, argv[k], used)
    requires sp == STACK_BASE + off && off <= 4096 && off == OffsetAt(argv, k)
    requires Pushing(ram0, free, m.ram, root, m.first, offs, argv[..k], off)
    requires HasBit(UserView(ram0, root)[STACK_VPN].flags, PTE_W)
    modifies m`ram
    ensures m.Valid() && m.Free() == free
    ensures !ok ==> !Fits(argv) && Pushing(ram0, free, m.ram, root, m.first, offs, argv[..k], off)
    ensures ok ==> next <= 4096 && next == OffsetAt(argv, k') && sp' == STACK_BASE + next
    ensures ok ==> Pushing(ram0, free, m.ram, root, m.first, offs + [next], argv[..k'], next)
  {
    BufferKept(ram0, free, m.ram, root, m.first, b);
    OnePushMore(argv, k);
    var page := m.ram[b];
    var n := |CString(page, start)| + 1;
    ghost var s := argv[k];
    HeldString(page, start, s, used, n);
    sp' := (sp - n) / 16 * 16;
    StackPointer(sp, off, n, sp');
    ghost var low := Push(off, n);
    PushSmall(off, n, low);
    if sp' < STACK_BASE {
      NoFit(argv, k');
      return false, sp', 0;
    }
    ok, next := true, low;
    PushString(m, root, sp', page[start..start + n], s, next, off, ram0, free, offs, argv[..k]);
  }

  /** ustack holds the addresses of the strings pushed so far. */
  ghost predicate Addresses(ustack: seq<nat>, offs: seq<int>) {
    && |ustack| == |offs|
    && forall j :: 0 <= j < |offs| ==> 0 <= offs[j] <= 4096 && ustack[j] == STACK_BASE + offs[j]
  }

  lemma AddressesNext(ustack: seq<nat>, offs: seq<int>, sp: nat, off: nat)
    requires Addresses(ustack, offs) && off <= 4096 && sp == STACK_BASE + off
    ensures Addresses(ustack + [sp], offs + [off])
  {
  }

  lemma NextHeld(page: Page, starts: seq<nat>, argv: seq<Bytes>, used: nat, k: nat)
    requires Packed(page, starts, argv, used) && k < |starts|
    ensures k < |argv| && Holds(page, starts[k], argv[k], used)
  {
  }

  /** The argument loop of kexec: the strings at `starts` of the kernel page b. */
  method PushStrings(m: Machine, root: nat, b: nat, starts: seq<nat>, ghost argv: seq<Bytes>, ghost used: nat,
                     ghost ram0: Ram, ghost free: set<nat>)
    returns (ok: bool, sp: nat, ustack: seq<nat>, ghost off: nat, ghost offs: seq<int>, ghost done: nat)
    requires m.Valid() && m.ram == ram0 && m.Free() == free && SpaceOk(ram0, free, root, m.first)
    requires b in ram0 && b !in free + SpacePages(ram0, root) && Packed(ram0[b], starts, argv, used)
    requires STACK_VPN in UserView(ram0, root) && HasBit(UserView(ram0, root)[STACK_VPN].flags, PTE_W)
    modifies m`ram
    ensures m.Valid() && m.Free() == free && done <= |argv| && sp == STACK_BASE + off && off <= 4096
    ensures if ok then done == |argv| <= MAXARG else !Fits(argv)
    ensures off == OffsetAt(argv, done) && Addresses(ustack, offs)
    ensures Pushing(ram0, free, m.ram, root, m.first, offs, argv[..done], off)
  {
    OffsetEnds(argv);
    PushingStart(ram0, free, root, m.first, argv[..0]);
    var argc := 0;
    sp, ustack, off, offs := USER_STACK_TOP, [], 4096, [];
    while argc < |starts|
      invariant 0 <= argc <= |starts| && argc <= MAXARG && m.Valid() && m.Free() == free
      invariant sp == STACK_BASE + off && off <= 4096 && off == OffsetAt(argv, argc) && Addresses(ustack, offs)
      invariant Pushing(ram0, free, m.ram, root, m.first, offs, argv[..argc], off)
    {
      if argc >= MAXARG {
        return false, sp, ustack, off, offs, argc;
      }
      var sp', argc' := 0, argc + 1;
      ghost var next;
      NextHeld(ram0[b], starts, argv, used, argc);
      ok, sp', next := PushNext(m, root, b, starts[argc], sp, argv, argc, argc', off, used, ram0, free, offs);
      if !ok {
        done := argc;
        return;
      }
      AddressesNext(ustack, offs, sp', next);
      sp, ustack, off, offs, argc := sp', ustack + [sp'], next, offs + [next], argc';
    }
    ok, done := true, argc;
  }

  // ---------------------------------------------------------------- the array

  /** From view0 to view, only the stack page changed, and the arguments lie on it, the array at word o. */
  ghost predicate ArgsPlaced(view0: View, view: View, o: nat, offs: seq<int>, argv: seq<Bytes>) {
    && STACK_VPN in view0 && STACK_VPN in view
    && view == WithPage(view0, StackPage(view))
    && ArgvOn(StackPage(view), o, STACK_BASE, offs, argv)
  }

  ghost predicate AllWords(ws: seq<nat>) {
    forall i :: 0 <= i < |ws| ==> ws[i] < 0x1_0000_0000
  }

  /** ustack[argc] = 0. */
  lemma ArrayWords(ustack: seq<nat>, offs: seq<int>, ws: seq<nat>)
    requires Addresses(ustack, offs) && ws == ustack + [0]
    ensures AllWords(ws) && |ws| == |offs| + 1 && ws[|offs|] == 0
    ensures forall j :: 0 <= j < |offs| ==> ws[j] == STACK_BASE + offs[j]
  {
  }

  lemma ArrayRoom(low: nat, n: nat, size: nat, off: nat)
    requires low <= 4096 && size == 4 * (n + 1) && off == Push(low, size)
    ensures off == 4 * (off / 4) && off / 4 % 4 == 0 && off < 4096 && off + size <= low
  {
  }

  lemma ArrayPlaced(view0: View, view1: View, view2: View, offs: seq<int>, argv: seq<Bytes>, low: nat, off: nat, o: nat,
                    ustack: seq<nat>, ws: seq<nat>, bytes: Bytes)
    requires PushedView(view0, view1, offs, argv, low) && low <= 4096 && off == 4 * o && o % 4 == 0
    requires off + 4 * (|argv| + 1) <= low && Addresses(ustack, offs) && ws == ustack + [0]
    requires AllWords(ws) && bytes == ArrayBytes(ws) && off + |bytes| <= 4096
    requires view2 == WithPage(view1, Blit(StackPage(view1), off, bytes))
    ensures ArgsPlaced(view0, view2, o, offs, argv)
  {
    ArrayWords(ustack, offs, ws);
    ArrayPushed(StackPage(view1), o, STACK_BASE, offs, argv, low, ws);
  }

  lemma SameLength(view0: View, view: View, offs: seq<int>, argv: seq<Bytes>, low: int)
    requires PushedView(view0, view, offs, argv, low)
    ensures |offs| == |argv| && view.Keys == view0.Keys
  {
  }

  /** Writes the array of addresses at sp. */
  method PushArray(m: Machine, root: nat, sp: nat, ustack: seq<nat>, ghost argv: seq<Bytes>, ghost offs: seq<int>,
                   ghost low: nat, ghost off: nat, ghost o: nat, ghost ram0: Ram, ghost free: set<nat>)
    requires m.Valid() && m.Free() == free && root in ram0 && low <= 4096 && off == 4 * o && o % 4 == 0
    requires sp == STACK_BASE + off && off < 4096 && off + 4 * (|argv| + 1) <= low && Addresses(ustack, offs)
    requires Pushing(ram0, free, m.ram, root, m.first, offs, argv, low)
    requires HasBit(UserView(ram0, root)[STACK_VPN].flags, PTE_W)
    modifies m`ram
    ensures m.Valid() && m.Free() == free && Kept(ram0, free, m.ram, free, root, m.first)
    ensures ArgsPlaced(UserView(ram0, root), UserView(m.ram, root), o, offs, argv)
  {
    ghost var ram1, view0, view1 := m.ram, UserView(ram0, root), UserView(m.ram, root);
    var ws := ustack + [0];
    ArrayWords(ustack, offs, ws);
    SameLength(view0, view1, offs, argv, low);
    var bytes := ArrayBytes(ws);
    PushBytes(m, root, sp, bytes, off, free, view1);
    KeptTrans(ram0, free, ram1, free, m.ram, free, root, m.first);
    ArrayPlaced(view0, view1, UserView(m.ram, root), offs, argv, low, off, o, ustack, ws, bytes);
  }

  lemma FitsIff(argv: seq<Bytes>, low: nat, size: nat)
    requires low == OffsetAt(argv, |argv|) && size == 4 * (|argv| + 1) && |argv| <= MAXARG
    ensures Fits(argv) <==> Push(low, size) >= 0
  {
    OffsetEnds(argv);
  }

  /** The last push of kexec. */
  method PushPointers(m: Machine, root: nat, sp: nat, ustack: seq<nat>, ghost argv: seq<Bytes>, ghost offs: seq<int>,
                      ghost low: nat, ghost ram0: Ram, ghost free: set<nat>)
    returns (ok: bool, sp': nat, ghost o: nat)
    requires m.Valid() && m.Free() == free && root in ram0 && |argv| <= MAXARG && |ustack| == |argv|
    requires sp == STACK_BASE + low && low <= 4096 && low == OffsetAt(argv, |argv|) && Addresses(ustack, offs)
    requires Pushing(ram0, free, m.ram, root, m.first, offs, argv, low)
    requires HasBit(UserView(ram0, root)[STACK_VPN].flags, PTE_W)
    modifies m`ram
    ensures m.Valid() && m.Free() == free && (ok <==> Fits(argv))
    ensures !ok ==> m.ram == old(m.ram)
    ensures ok ==> sp' == STACK_BASE + 4 * o && ArgsPlaced(UserView(ram0, root), UserView(m.ram, root), o, offs, argv)
    ensures ok ==> Kept(ram0, free, m.ram, free, root, m.first)
  {
    var size := 4 * (|ustack| + 1);
    FitsIff(argv, low, size);
    sp' := (sp - size) / 16 * 16;
    StackPointer(sp, low, size, sp');
    if sp' < STACK_BASE {
      return false, sp', 0;
    }
    ghost var off: nat := Push(low, size);
    ArrayRoom(low, |argv|, size, off);
    o := off / 4;
    PushArray(m, root, sp', ustack, argv, offs, low, off, o, ram0, free);
    ok := true;
  }

  /** kexec's pushes: the strings at `starts` of the kernel page b and the array of their addresses fit, or
      nothing but the stack page was touched. */
  method PushArgs(m: Machine, root: nat, b: nat, starts: seq<nat>, ghost argv: seq<Bytes>, ghost used: nat,
                  ghost ram0: Ram, ghost free: set<nat>)
    returns (ok: bool, sp: nat, ghost offs: seq<int>, ghost o: nat)
    requires m.Valid() && m.ram == ram0 && m.Free() == free && SpaceOk(ram0, free, root, m.first)
    requires b in ram0 && b !in free + SpacePages(ram0, root) && Packed(ram0[b], starts, argv, used)
    requires STACK_VPN in UserView(ram0, root) && HasBit(UserView(ram0, root)[STACK_VPN].flags, PTE_W)
    modifies m`ram
    ensures m.Valid() && m.Free() == free && (ok <==> Fits(argv))
    ensures Kept(ram0, free, m.ram, free, root, m.first)
    ensures !ok ==> UserView(m.ram, root).Keys == UserView(ram0, root).Keys
    ensures ok ==> sp == STACK_BASE + 4 * o && ArgsPlaced(UserView(ram0, root), UserView(m.ram, root), o, offs, argv)
  {
    OffsetEnds(argv);
    var ustack;
    ghost var low, done;
    ok, sp, ustack, low, offs, done := PushStrings(m, root, b, starts, argv, used, ram0, free);
    o := 0;
    SameLength(UserView(ram0, root), UserView(m.ram, root), offs, argv[..done], low);
    if !ok {
      return;
    }
    ok, sp, o := PushPointers(m, root, sp, ustack, argv, offs, low, ram0, free);
  }
}

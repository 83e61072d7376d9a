/** sys_exec and the return path of syscall() in kernel/syscall.c. */
module SysExec {
  import opened Layout
  import opened Memory
  import opened UserSpace
  import opened PageCount
  import opened UserCopy
  import opened ProcMemory
  import opened Elf
  import opened Loader
  import opened Args
  import opened ArgStack
  import opened Exec
  import opened UserArgs
  import opened Gather

  const MAXPATH: nat := 32

  /** While sys_exec holds page b, the slot is as before and b belongs to nobody. */
  lemma BufferTaken(ram: Ram, free: set<nat>, p: Slot, first: nat, b: nat)
    requires SlotOk(ram, free, p, first) && AllRam(ram) && RAM_FIRST <= first && b in free
    ensures SlotOk(ram, free - {b}, p, first) && b !in SlotPages(ram, p) && b !in free - {b}
  {
    SlotDisjoint(ram, free, p, first);
    SlotFrame(ram, free, ram, free - {b}, p, first, {});
  }

  /** Filling page b leaves the slot as it was. */
  lemma BufferFilled(ram0: Ram, free: set<nat>, ram1: Ram, p: Slot, first: nat, b: nat)
    requires SlotOk(ram0, free, p, first) && AllRam(ram0) && RAM_FIRST <= first && InRam(b) && b !in SlotPages(ram0, p)
    requires OnlyPage(ram0, ram1, b) && p.pt != 0 && p.tf != 0
    ensures SlotOk(ram1, free, p, first) && SlotPages(ram1, p) == SlotPages(ram0, p) && ram1[p.tf] == ram0[p.tf]
    ensures SpacePages(ram1, p.pt) == SpacePages(ram0, p.pt)
  {
    SlotDisjoint(ram0, free, p, first);
    SlotFrame(ram0, free, ram1, free, p, first, {b});
    SpaceFrame(ram0, free, ram1, free, p.pt, first, {b});
  }

  /** A trade made while page b is in use: b may have been written as well. */
  ghost predicate TradeHolding(ram: Ram, free: set<nat>, p: Slot, ram': Ram, free': set<nat>, s: Slot, first: nat,
                               b: nat) {
    && SlotOk(ram', free', s, first)
    && free' + SlotPages(ram', s) == free + SlotPages(ram, p)
    && SameOutside(ram, ram', free + SlotPages(ram, p) + {b})
  }

  lemma HoldingTrade(ram0: Ram, free: set<nat>, ram1: Ram, p: Slot, ram2: Ram, free2: set<nat>, s: Slot, first: nat,
                     b: nat)
    requires OnlyPage(ram0, ram1, b) && SlotPages(ram1, p) == SlotPages(ram0, p)
    requires Trade(ram1, free, p, ram2, free2, s, first)
    ensures TradeHolding(ram0, free, p, ram2, free2, s, first, b)
  {
  }

  lemma HoldingFailure(ram0: Ram, free: set<nat>, ram1: Ram, ram2: Ram, b: nat)
    requires OnlyPage(ram0, ram1, b) && SameOutside(ram1, ram2, free)
    ensures SameOutside(ram0, ram2, free + {b})
  {
  }

  /** Giving b back after a failed exec. */
  lemma BufferFreedAfterFailure(ram0: Ram, free0: set<nat>, ram1: Ram, b: nat)
    requires b in free0 && SameOutside(ram0, ram1, free0 - {b} + {b})
    ensures free0 - {b} + {b} == free0 && SameOutside(ram0, ram1[b := ZERO_PAGE], free0)
  {
  }

  lemma BufferNotOwned(ram0: Ram, free0: set<nat>, ram1: Ram, free1: set<nat>, p: Slot, s: Slot, first: nat, b: nat)
    requires b in free0 && b !in SlotPages(ram0, p) && TradeHolding(ram0, free0 - {b}, p, ram1, free1, s, first, b)
    ensures b !in free1 && b !in SlotPages(ram1, s)
  {
    assert b !in free0 - {b} + SlotPages(ram0, p);
  }

  /** Giving b back after a successful exec. */
  lemma BufferFreedAfterExec(ram0: Ram, free0: set<nat>, ram1: Ram, free1: set<nat>, p: Slot, s: Slot, first: nat,
                             b: nat)
    requires b in free0 && b !in SlotPages(ram0, p) && TradeHolding(ram0, free0 - {b}, p, ram1, free1, s, first, b)
    requires AllRam(ram1) && RAM_FIRST <= first && InRam(b) && s.pt != 0 && s.tf != 0
    ensures Trade(ram0, free0, p, ram1[b := ZERO_PAGE], free1 + {b}, s, first)
    ensures SpacePages(ram1[b := ZERO_PAGE], s.pt) == SpacePages(ram1, s.pt)
    ensures UserView(ram1[b := ZERO_PAGE], s.pt) == UserView(ram1, s.pt) && ram1[b := ZERO_PAGE][s.tf] == ram1[s.tf]
  {
    BufferNotOwned(ram0, free0, ram1, free1, p, s, first, b);
    SlotDisjoint(ram1, free1, s, first);
    SlotFrame(ram1, free1, ram1[b := ZERO_PAGE], free1 + {b}, s, first, {b});
    SpaceFrame(ram1, free1, ram1[b := ZERO_PAGE], free1 + {b}, s.pt, first, {b});
    assert free1 + {b} + SlotPages(ram1, s) == free0 - {b} + SlotPages(ram0, p) + {b};
  }

  lemma SwappedWithBuffer(free0: set<nat>, free1: set<nat>, mine: set<nat>, was: set<nat>, b: nat)
    requires b in free0 && Swapped(free0 - {b}, free1, mine, was)
    ensures Swapped(free0, free1 + {b}, mine, was)
  {
  }

  /** What the caller asked for: a program name and an argument list. */
  ghost predicate Asked(view: View, upath: nat, uargv: nat, path: Bytes, args: seq<Bytes>)
    requires upath < 0x1_0000_0000 && uargv < 0x1_0000_0000
  {
    |path| < MAXPATH && StringIs(view, upath, path) && Wanted(view, uargv, args)
  }

  /** Requests exec can satisfy when memory suffices. */
  ghost predicate Runnable(programs: map<Bytes, Image>, path: Bytes, args: seq<Bytes>) {
    path in programs && Accepted(programs[path]) && Fits(args)
  }

  /** Requests exec can satisfy with `free` pages at hand. */
  ghost predicate Affordable(programs: map<Bytes, Image>, path: Bytes, args: seq<Bytes>, free: int) {
    Runnable(programs, path, args) && free >= PagesNeeded(programs[path])
  }

  /** The caller, which sees view and has trapframe tf, asks for this program and these arguments; exec can satisfy
      it with the given number of free pages, one of which is the buffer for the arguments. */
  ghost predicate Feasible(view: View, tf: Page, programs: map<Bytes, Image>, free: nat, path: Bytes,
                           args: seq<Bytes>) {
    Asked(view, Word(tf, 15), Word(tf, 16), path, args) && Affordable(programs, path, args, free - 1)
  }

  /** copyinstr of the program's name. */
  method ReadPath(ram: Ram, root: nat, ghost view: View, upath: nat) returns (ok: bool, path: Bytes)
    requires Reads(ram, root, view) && upath < 0x1_0000_0000
    ensures ok ==> |path| < MAXPATH && StringIs(view, upath, path)
    ensures !ok ==> forall s :: |s| < MAXPATH ==> !StringIs(view, upath, s)
  {
    var buf := new Byte[32];
    ghost var len;
    ok, len := Scan(ram, root, view, buf, 0, upath, 32);
    if !ok {
      return false, [];
    }
    ghost var used := len + 1;
    FetchedString(view, upath, buf[..], 0, len, used);
    CStringIs(buf[..], 0, buf[..][0..0 + len]);
    path := CString(buf[..], 0);
  }

  /** The part of sys_exec that runs with the buffer page b in hand. */
  method ExecWithBuffer(m: Machine, tramp: nat, programs: map<Bytes, Image>, p: Slot, path: Bytes, uargv: nat, b: nat,
                        ghost ram0: Ram, ghost free: set<nat>, ghost view: View, ghost cand: seq<Bytes>,
                        ghost want: bool)
    returns (ret: int, s: Slot, ghost args: seq<Bytes>, ghost sp: nat, ghost o: nat, ghost offs: seq<int>)
    requires m.Valid() && RAM_FIRST < tramp && tramp + 1 < RAM_END && uargv < 0x1_0000_0000
    requires forall name :: name in programs ==> |programs[name].bytes| <= 0x800_0000
    requires m.ram == ram0 && m.Free() == free && SlotOk(ram0, free, p, m.first) && p.used && p.pt != 0 && p.tf != 0
    requires b !in SlotPages(ram0, p) && BufferApart(ram0, free, p.pt, m.first, b, view)
    requires want ==> Wanted(view, uargv, cand) && Affordable(programs, path, cand, |free|)
    modifies m, m.bitmap
    ensures m.Valid() && p.tf in ram0 && p.pt in ram0
    ensures ret == -1 ==> s == p && m.Free() == free && SameOutside(ram0, m.ram, free + {b})
    ensures ret != -1 ==> ret == |args| && TradeHolding(ram0, free, p, m.ram, m.Free(), s, m.first, b)
    ensures ret != -1 ==> Wanted(view, uargv, args) && (forall j :: 0 <= j < |args| ==> NoNul(args[j]))
    ensures ret != -1 ==> Affordable(programs, path, args, |free|)
    ensures ret != -1 ==> Replaced(m.ram, s, p, ram0[p.tf], programs[path], path, args, sp, o, offs)
    ensures ret != -1 ==> Swapped(free, m.Free(), SpacePages(m.ram, s.pt), SpacePages(ram0, p.pt))
    ensures want ==> ret != -1 && args == cand
  {
    assert InRam(p.tf);
    var ok, starts;
    ghost var top;
    ok, starts, args, top := GatherArgs(m, p.pt, view, b, uargv, cand, want, ram0, free);
    ghost var ram1 := m.ram;
    BufferFilled(ram0, free, ram1, p, m.first, b);
    ret, s, sp, o, offs := -1, p, 0, 0, [];
    if ok {
      ret, s, sp, o, offs := KExec(m, tramp, programs, p, path, b, starts, args, top);
    }
    if ret == -1 {
      HoldingFailure(ram0, free, ram1, m.ram, b);
    } else {
      HoldingTrade(ram0, free, ram1, p, m.ram, m.Free(), s, m.first, b);
    }
  }

  /** Zeroing a page outside the slot does not change what exec set up. */
  lemma ReplacedFrame(ram: Ram, ram': Ram, s: Slot, p: Slot, tf: Page, img: Image, path: Bytes, args: seq<Bytes>,
                      sp: nat, o: nat, offs: seq<int>)
    requires Replaced(ram, s, p, tf, img, path, args, sp, o, offs) && s.pt in ram' && s.tf in ram'
    requires UserView(ram', s.pt) == UserView(ram, s.pt) && ram'[s.tf] == ram[s.tf]
    ensures Replaced(ram', s, p, tf, img, path, args, sp, o, offs)
  {
  }

  /** A caller makes one request. */
  lemma OneRequest(view: View, upath: nat, uargv: nat, path: Bytes, args: seq<Bytes>, cpath: Bytes, cand: seq<Bytes>)
    requires upath < 0x1_0000_0000 && uargv < 0x1_0000_0000
    requires Asked(view, upath, uargv, path, args) && Asked(view, upath, uargv, cpath, cand)
    ensures path == cpath && args == cand
  {
    SameString(view, upath, path, cpath);
    SameArgv(view, uargv, args, cand);
  }

  /** sys_exec, called with the path's address in a0 and the list's address in a1: -1 and nothing
      changed, or the caller is the program it asked for, run with the arguments it gave.  It succeeds exactly
      if there is a request that can be satisfied with the free pages there are.  cpath and cand are such a request,
      if want says that there is one. */
  method ExecAsked(m: Machine, tramp: nat, programs: map<Bytes, Image>, p: Slot, upath: nat, uargv: nat,
                   ghost ram0: Ram, ghost free0: set<nat>, ghost view: View, ghost cpath: Bytes,
                   ghost cand: seq<Bytes>, ghost want: bool)
    returns (ret: int, s: Slot, ghost path: Bytes, ghost args: seq<Bytes>, ghost sp: nat, ghost o: nat,
             ghost offs: seq<int>)
    requires m.Valid() && RAM_FIRST < tramp && tramp + 1 < RAM_END && upath < 0x1_0000_0000 && uargv < 0x1_0000_0000
    requires forall name :: name in programs ==> |programs[name].bytes| <= 0x800_0000
    requires m.ram == ram0 && m.Free() == free0 && SlotOk(ram0, free0, p, m.first) && p.used && p.pt != 0 && p.tf != 0
    requires view == UserView(ram0, p.pt)
    requires want ==> Asked(view, upath, uargv, cpath, cand) && Affordable(programs, cpath, cand, |free0| - 1)
    modifies m, m.bitmap
    ensures m.Valid() && p.tf in ram0
    ensures ret == -1 ==> s == p && m.Free() == free0 && SameOutside(ram0, m.ram, free0)
    ensures ret != -1 ==> ret == |args| && Trade(ram0, free0, p, m.ram, m.Free(), s, m.first)
    ensures ret != -1 ==> Asked(view, upath, uargv, path, args) && (forall j :: 0 <= j < |args| ==> NoNul(args[j]))
    ensures ret != -1 ==> Affordable(programs, path, args, |free0| - 1)
    ensures ret != -1 ==> Replaced(m.ram, s, p, ram0[p.tf], programs[path], path, args, sp, o, offs)
    ensures ret != -1 ==> Swapped(free0, m.Free(), SpacePages(m.ram, s.pt), SpacePages(ram0, p.pt))
    ensures want ==> ret != -1 && args == cand && path == cpath
  {
    assert InRam(p.tf);
    SpaceReads(ram0, free0, p.pt, m.first);
    ret, s, args, sp, o, offs := -1, p, [], 0, 0, [];
    var ok, name := ReadPath(m.ram, p.pt, view, upath);
    path := name;
    if !ok {
      return;
    }
    if want {
      SameString(view, upath, path, cpath);
    }
    var pa := m.Kalloc();
    if pa == 0 {
      if want {
        NeedsPages(programs, cpath, cand);
      }
      return;
    }
    ghost var b := pa / 4096;
    OneLess(free0, b);
    ret, s, args, sp, o, offs := ExecAndFree(m, tramp, programs, p, name, uargv, pa, ram0, free0, view, cand, want);
  }

  lemma NeedsPages(programs: map<Bytes, Image>, path: Bytes, args: seq<Bytes>)
    requires Runnable(programs, path, args)
    ensures PagesNeeded(programs[path]) > 0
  {
    ImageEndBelow(programs[path]);
  }

  /** sys_exec: it succeeds exactly if the caller's request is feasible. */
  method ExecRequest(m: Machine, tramp: nat, programs: map<Bytes, Image>, p: Slot)
    returns (ret: int, s: Slot, ghost path: Bytes, ghost args: seq<Bytes>, ghost sp: nat, ghost o: nat,
             ghost offs: seq<int>)
    requires m.Valid() && RAM_FIRST < tramp && tramp + 1 < RAM_END
    requires forall name :: name in programs ==> |programs[name].bytes| <= 0x800_0000
    requires SlotOk(m.ram, m.Free(), p, m.first) && p.used && p.pt != 0 && p.tf != 0
    modifies m, m.bitmap
    ensures m.Valid() && p.tf in old(m.ram) && p.pt in old(m.ram)
    ensures ret == -1 ==> s == p && m.Free() == old(m.Free()) && SameOutside(old(m.ram), m.ram, old(m.Free()))
    ensures ret == -1 ==> forall cpath, cand ::
              !Feasible(old(UserView(m.ram, p.pt)), old(m.ram)[p.tf], programs, old(|m.Free()|), cpath, cand)
    ensures ret != -1 ==> Feasible(old(UserView(m.ram, p.pt)), old(m.ram)[p.tf], programs, old(|m.Free()|), path, args)
    ensures ret != -1 ==> ret == |args| && Trade(old(m.ram), old(m.Free()), p, m.ram, m.Free(), s, m.first)
    ensures ret != -1 ==> forall j :: 0 <= j < |args| ==> NoNul(args[j])
    ensures ret != -1 ==> Replaced(m.ram, s, p, old(m.ram)[p.tf], programs[path], path, args, sp, o, offs)
    ensures ret != -1 ==> Swapped(old(m.Free()), m.Free(), SpacePages(m.ram, s.pt), old(SpacePages(m.ram, p.pt)))
  {
    assert InRam(p.tf);
    ghost var ram0, free0, view, tf := m.ram, m.Free(), UserView(m.ram, p.pt), m.ram[p.tf];
    var upath, uargv := Word(m.ram[p.tf], 15), Word(m.ram[p.tf], 16);
    ghost var want := exists cpath, cand :: Feasible(view, tf, programs, |free0|, cpath, cand);
    ghost var cpath: Bytes, cand: seq<Bytes> := [], [];
    if want {
      cpath, cand :| Feasible(view, tf, programs, |free0|, cpath, cand);
    }
    ret, s, path, args, sp, o, offs := ExecAsked(m, tramp, programs, p, upath, uargv, ram0, free0, view, cpath, cand,
                                                 want);
  }

  /** sys_exec from the point where kalloc gave it the page at pa. */
  method ExecAndFree(m: Machine, tramp: nat, programs: map<Bytes, Image>, p: Slot, path: Bytes, uargv: nat, pa: nat,
                     ghost ram0: Ram, ghost free0: set<nat>, ghost view: View, ghost cand: seq<Bytes>, ghost want: bool)
    returns (ret: int, s: Slot, ghost args: seq<Bytes>, ghost sp: nat, ghost o: nat, ghost offs: seq<int>)
    requires m.Valid() && RAM_FIRST < tramp && tramp + 1 < RAM_END && uargv < 0x1_0000_0000
    requires forall name :: name in programs ==> |programs[name].bytes| <= 0x800_0000
    requires pa % 4096 == 0 && m.Allocatable(pa / 4096) && pa / 4096 in free0 && m.Free() == free0 - {pa / 4096}
    requires m.ram == ram0 && SlotOk(ram0, free0, p, m.first) && p.used && p.pt != 0 && p.tf != 0
    requires view == UserView(ram0, p.pt)
    requires want ==> Wanted(view, uargv, cand) && Affordable(programs, path, cand, |m.Free()|)
    modifies m, m.bitmap
    ensures m.Valid() && p.tf in ram0
    ensures ret == -1 ==> s == p && m.Free() == free0 && SameOutside(ram0, m.ram, free0)
    ensures ret != -1 ==> ret == |args| && Trade(ram0, free0, p, m.ram, m.Free(), s, m.first)
    ensures ret != -1 ==> Wanted(view, uargv, args) && (forall j :: 0 <= j < |args| ==> NoNul(args[j]))
    ensures ret != -1 ==> Affordable(programs, path, args, old(|m.Free()|))
    ensures ret != -1 ==> Replaced(m.ram, s, p, ram0[p.tf], programs[path], path, args, sp, o, offs)
    ensures ret != -1 ==> Swapped(free0, m.Free(), SpacePages(m.ram, s.pt), SpacePages(ram0, p.pt))
    ensures want ==> ret != -1 && args == cand
  {
    assert InRam(p.tf);
    var b := pa / 4096;
    ghost var free := m.Free();
    BufferTaken(ram0, free0, p, m.first, b);
    ret, s, args, sp, o, offs := ExecWithBuffer(m, tramp, programs, p, path, uargv, b, ram0, free, view, cand, want);
    if ret == -1 {
      FreeAfterFailure(m, pa, ram0, free0);
    } else {
      ghost var ram1, free1 := m.ram, m.Free();
      FreeAfterExec(m, pa, p, s, ram0, free0);
      ReplacedFrame(ram1, m.ram, s, p, ram0[p.tf], programs[path], path, args, sp, o, offs);
      SwappedWithBuffer(free0, free1, SpacePages(ram1, s.pt), SpacePages(ram0, p.pt), b);
    }
  }

  /** kfree(buf) after a failed exec. */
  method FreeAfterFailure(m: Machine, pa: nat, ghost ram0: Ram, ghost free0: set<nat>)
    requires m.Valid() && pa % 4096 == 0 && m.Allocatable(pa / 4096) && pa / 4096 in free0
    requires m.Free() == free0 - {pa / 4096}
    requires SameOutside(ram0, m.ram, free0 - {pa / 4096} + {pa / 4096})
    modifies m, m.bitmap
    ensures m.Valid() && m.Free() == free0 && SameOutside(ram0, m.ram, free0)
  {
    BufferFreedAfterFailure(ram0, free0, m.ram, pa / 4096);
    m.Kfree(pa);
  }

  /** kfree(buf) after a successful exec. */
  method FreeAfterExec(m: Machine, pa: nat, ghost p: Slot, ghost s: Slot, ghost ram0: Ram, ghost free0: set<nat>)
    requires m.Valid() && pa % 4096 == 0 && m.Allocatable(pa / 4096) && pa / 4096 in free0
    requires pa / 4096 !in SlotPages(ram0, p)
    requires TradeHolding(ram0, free0 - {pa / 4096}, p, m.ram, m.Free(), s, m.first, pa / 4096) && s.pt != 0
    requires s.tf != 0
    modifies m, m.bitmap
    ensures m.Valid() && Trade(ram0, free0, p, m.ram, m.Free(), s, m.first)
    ensures m.Free() == old(m.Free()) + {pa / 4096} && s.pt in old(m.ram) && s.tf in old(m.ram)
    ensures UserView(m.ram, s.pt) == old(UserView(m.ram, s.pt)) && m.ram[s.tf] == old(m.ram)[s.tf]
    ensures SpacePages(m.ram, s.pt) == old(SpacePages(m.ram, s.pt))
  {
    ghost var ram1, free1, b := m.ram, m.Free(), pa / 4096;
    assert InRam(s.tf);
    BufferNotOwned(ram0, free0, ram1, free1, p, s, m.first, b);
    BufferFreedAfterExec(ram0, free0, ram1, free1, p, s, m.first, b);
    m.Kfree(pa);
  }

  // ---------------------------------------------------------------- what the new program finds

  /** A program about to run its first instruction: its pc is the image's entry, a0 is the number of its
      arguments, a1 and sp the 16-byte-aligned address of its argument list, and its memory is its image
      and one stack page. */
  ghost predicate Started(view: View, tf: Page, img: Image, args: seq<Bytes>, sz: nat) {
    && Word(tf, 4) == Entry(img) && Word(tf, 15) == |args|
    && Word(tf, 16) == Word(tf, 7) && Word(tf, 16) % 16 == 0 && UserArgv(view, Word(tf, 16), args)
    && Loaded(view, img, Phnum(img), sz) && (forall v :: v in view <==> (1 <= v && v * 4096 < sz) || v == STACK_VPN)
    && Rights(view[STACK_VPN].flags, true, false)
  }

  /** syscall() stores the return value in a0. */
  function WithA0(tf: Page, ret: int): Page
    requires -1 <= ret < 0x1_0000_0000
  {
    SetWord(tf, 15, if ret == -1 then 0xFFFF_FFFF else ret)
  }

  lemma WithA0Is(tf: Page, ret: int, k: nat)
    requires -1 <= ret < 0x1_0000_0000 && k < 1024
    ensures Word(WithA0(tf, ret), k) == if k != 15 then Word(tf, k) else if ret == -1 then 0xFFFF_FFFF else ret
  {
    WordAfterSet(tf, 15, if ret == -1 then 0xFFFF_FFFF else ret, k);
  }

  lemma StartFrame(tf: Page, entry: nat, sp: nat, ret: nat)
    requires entry < 0x1_0000_0000 && sp < 0x1_0000_0000 && ret < 0x1_0000_0000
    ensures var tf' := WithA0(ExecFrame(tf, entry, sp), ret);
            Word(tf', 4) == entry && Word(tf', 7) == sp && Word(tf', 16) == sp && Word(tf', 15) == ret
  {
    var x := ExecFrame(tf, entry, sp);
    WithA0Is(x, ret, 4);
    WithA0Is(x, ret, 7);
    WithA0Is(x, ret, 16);
    WithA0Is(x, ret, 15);
    ExecFrameIs(tf, entry, sp, 4);
    ExecFrameIs(tf, entry, sp, 7);
    ExecFrameIs(tf, entry, sp, 16);
  }

  lemma FewArgs(programs: map<Bytes, Image>, path: Bytes, args: seq<Bytes>)
    requires Runnable(programs, path, args)
    ensures |args| <= MAXARG
  {
  }

  /** The stack can be read and written, not executed. */
  lemma StackRights()
    ensures Rights(STACK_FLAGS, true, false) && HasBit(STACK_FLAGS, PTE_R)
  {
  }

  lemma StartsWith(view: View, tf: Page, tf': Page, img: Image, args: seq<Bytes>, sz: nat, sp: nat, o: nat,
                   offs: seq<int>)
    requires ImageView(view, img, args, sz, o, offs) && sp == STACK_BASE + 4 * o && sp < 0x1_0000_0000
    requires |args| <= MAXARG && (forall j :: 0 <= j < |args| ==> NoNul(args[j]))
    requires tf' == WithA0(ExecFrame(tf, Entry(img), sp), |args|)
    ensures Started(view, tf', img, args, sz)
  {
    StackRights();
    ArgvVisible(view, o, offs, args, sp);
    StartFrame(tf, Entry(img), sp, |args|);
  }

  /** The arguments arrive: what exec built reads, through the new table, as the list it was given. */
  lemma ArgumentsArrive(ram: Ram, s: Slot, p: Slot, tf: Page, img: Image, path: Bytes, args: seq<Bytes>, sp: nat,
                        o: nat, offs: seq<int>)
    requires Replaced(ram, s, p, tf, img, path, args, sp, o, offs)
    requires |args| <= MAXARG && forall j :: 0 <= j < |args| ==> NoNul(args[j])
    ensures Started(UserView(ram, s.pt), WithA0(ram[s.tf], |args|), img, args, s.sz)
  {
    StartsWith(UserView(ram, s.pt), tf, WithA0(ram[s.tf], |args|), img, args, s.sz, sp, o, offs);
  }
}

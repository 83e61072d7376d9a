/** sys_exec of kernel/syscall.c: copying the caller's argument list into a kernel page. */
module Gather {
  import opened Layout
  import opened Memory
  import opened UserSpace
  import opened UserCopy
  import opened Grow
  import opened CopySpace
  import opened Args
  import opened UserArgs

  lemma HoldsLater(buf: Bytes, buf': Bytes, at: nat, s: Bytes, used: nat, used': nat, n: nat)
    requires Holds(buf, at, s, used) && Around(buf, buf', used, n) && used <= used' <= |buf|
    ensures Holds(buf', at, s, used')
  {
    assert forall i :: at <= i < at + |s| ==> buf'[i] == buf[i];
  }

  /** A later string overwrites none of the earlier ones. */
  lemma PackedNext(buf: Bytes, buf': Bytes, starts: seq<nat>, args: seq<Bytes>, used: nat, used': nat, n: nat, s: Bytes)
    requires Packed(buf, starts, args, used) && Around(buf, buf', used, n) && used <= used' <= |buf|
    requires Holds(buf', used, s, used')
    ensures Packed(buf', starts + [used], args + [s], used')
  {
    forall j | 0 <= j < |args|
      ensures Holds(buf', starts[j], args[j], used')
    {
      HoldsLater(buf, buf', starts[j], args[j], used, used', n);
    }
  }

  /** The bytes the strings take in the page. */
  function PackedSize(args: seq<Bytes>): nat {
    if args == [] then 0 else PackedSize(args[..|args| - 1]) + |args[|args| - 1]| + 1
  }

  function SizeAt(args: seq<Bytes>, k: nat): nat
    requires k <= |args|
  {
    PackedSize(args[..k])
  }

  lemma {:induction false} SizeGrows(args: seq<Bytes>, k: nat)
    requires k <= |args|
    ensures SizeAt(args, k) <= PackedSize(args)
    decreases |args|
  {
    if k == |args| {
      assert args[..k] == args;
    } else {
      var rest := args[..|args| - 1];
      SizeGrows(rest, k);
      assert rest[..k] == args[..k];
    }
  }

  lemma SizeNext(args: seq<Bytes>, k: nat, k': nat)
    requires k < |args| && k' == k + 1
    ensures SizeAt(args, k') == SizeAt(args, k) + |args[k]| + 1 && args[..k] + [args[k]] == args[..k']
  {
    assert args[..k'][..k] == args[..k];
  }

  // ---------------------------------------------------------------- the loop

  /** What is known of the caller's list after i entries; cand is any list it might be. */
  ghost predicate Gathered(view: View, list: nat, args: seq<Bytes>, i: nat, used: nat, cand: seq<Bytes>, want: bool)
    requires list < 0x1_0000_0000
  {
    && |args| == i <= MAXARG && used == PackedSize(args)
    && (forall j :: 0 <= j < |args| ==> UserArg(view, list, j, args[j]))
    && (want ==> i <= |cand| <= MAXARG && args == cand[..i] && used == SizeAt(cand, i))
  }

  /** cand is the caller's list, and it fits in the page. */
  ghost predicate Wanted(view: View, list: nat, cand: seq<Bytes>)
    requires list < 0x1_0000_0000
  {
    UserArgv(view, list, cand) && PackedSize(cand) <= 4096
  }

  lemma WantedArg(view: View, list: nat, cand: seq<Bytes>, i: nat)
    requires 0 < list < 0x1_0000_0000 && Wanted(view, list, cand) && i <= |cand|
    ensures |cand| <= MAXARG && RangeAllows(view, Plus(list, 4 * i), 4, PTE_R)
    ensures UserWord(view, Plus(list, 4 * i)) != 0 ==> i < |cand| && UserArg(view, list, i, cand[i])
    ensures UserWord(view, Plus(list, 4 * i)) == 0 ==> i == |cand|
  {
    if i < |cand| {
      assert UserArg(view, list, i, cand[i]);
    }
  }

  /** One more string. */
  lemma GatheredNext(view: View, list: nat, args: seq<Bytes>, i: nat, i': nat, used: nat, used': nat,
                     cand: seq<Bytes>, want: bool, s: Bytes)
    requires 0 < list < 0x1_0000_0000 && Gathered(view, list, args, i, used, cand, want) && i < MAXARG && i' == i + 1
    requires want ==> Wanted(view, list, cand)
    requires UserArg(view, list, i, s) && used' == used + |s| + 1
    ensures Gathered(view, list, args + [s], i', used', cand, want)
  {
    assert (args + [s])[..|args|] == args;
    if want {
      WantedArg(view, list, cand, i);
      SameString(view, UserWord(view, Plus(list, 4 * i)), s, cand[i]);
      SizeNext(cand, i, i');
    }
  }

  lemma GatheredAll(view: View, list: nat, args: seq<Bytes>, i: nat, used: nat, cand: seq<Bytes>, want: bool)
    requires 0 < list < 0x1_0000_0000 && Gathered(view, list, args, i, used, cand, want)
    requires want ==> Wanted(view, list, cand)
    requires UserEnd(view, list, i)
    ensures UserArgv(view, list, args) && (want ==> args == cand)
  {
    if want {
      WantedArg(view, list, cand, i);
      assert cand[..i] == cand;
    }
  }

  /** A string that is missing, or too long for the rest of the page. */
  lemma GatheredShort(view: View, list: nat, args: seq<Bytes>, i: nat, used: nat, cand: seq<Bytes>, want: bool)
    requires 0 < list < 0x1_0000_0000 && Gathered(view, list, args, i, used, cand, want) && used <= 4096
    requires want ==> Wanted(view, list, cand)
    requires RangeAllows(view, Plus(list, 4 * i), 4, PTE_R) && 0 < UserWord(view, Plus(list, 4 * i)) < 0x1_0000_0000
    requires forall k :: 0 <= k < 4096 - used ==> !StringAt(view, UserWord(view, Plus(list, 4 * i)), k)
    ensures !want
  {
    if want {
      WantedArg(view, list, cand, i);
      SizeNext(cand, i, i + 1);
      SizeGrows(cand, i + 1);
    }
  }

  /** copyin of one word. */
  method ReadWord(ram: Ram, root: nat, ghost view: View, a: nat) returns (ok: bool, w: nat)
    requires Reads(ram, root, view) && a < 0x1_0000_0000
    ensures ok <==> RangeAllows(view, a, 4, PTE_R)
    ensures w < 0x1_0000_0000 && (ok ==> w == UserWord(view, a))
  {
    var word := new Byte[4];
    ok := Fetch(ram, root, view, word, 0, a, 4);
    if !ok {
      return false, 0;
    }
    assert word[..][0 + 0] == word[0] && word[..][0 + 1] == word[1] && word[..][0 + 2] == word[2]
      && word[..][0 + 3] == word[3];
    var b0: int, b1: int, b2: int, b3: int := word[0], word[1], word[2], word[3];
    w := b0 + 0x100 * b1 + 0x1_0000 * b2 + 0x100_0000 * b3;
  }

  lemma FetchedString(view: View, a: nat, buf: Bytes, at: nat, n: nat, used: nat)
    requires a < 0x1_0000_0000 && n < 0x1_0000_0000 && used == at + n + 1 && used <= |buf|
    requires StringAt(view, a, n) && Fetched(view, a, buf, at, n + 1)
    ensures StringIs(view, a, buf[at..at + n]) && Holds(buf, at, buf[at..at + n], used)
  {
    var s := buf[at..at + n];
    forall i | 0 <= i < n
      ensures s[i] == ByteAt(view, Plus(a, i))
    {
      assert s[i] == buf[at + i];
    }
  }

  // ---------------------------------------------------------------- the kernel page

  /** Page b is none of the caller's pages; view is what the caller sees. */
  ghost predicate BufferApart(ram: Ram, free: set<nat>, root: nat, first: nat, b: nat, view: View) {
    && SpaceOk(ram, free, root, first) && AllRam(ram) && RAM_FIRST <= first && InRam(b)
    && b !in SpacePages(ram, root) + free && UserView(ram, root) == view
  }

  /** Nothing but page b changed. */
  ghost predicate OnlyPage(ram: Ram, ram': Ram, b: nat) {
    b in ram' && ram' == ram[b := ram'[b]]
  }

  /** Filling the page does not change what the caller's memory reads as. */
  lemma StillReads(ram0: Ram, free: set<nat>, root: nat, first: nat, b: nat, view: View, ram: Ram)
    requires BufferApart(ram0, free, root, first, b, view) && OnlyPage(ram0, ram, b)
    ensures Reads(ram, root, view)
  {
    SpaceDisjoint(ram0, free, root, first);
    SpaceFrame(ram0, free, ram, free, root, first, {b});
    SpaceReads(ram, free, root, first);
  }

  /** copyinstr of one argument into a copy of the page. */
  method ScanLine(ram: Ram, root: nat, ghost view: View, page: Page, a: nat, used: nat)
    returns (ok: bool, line: Page, ghost len: nat)
    requires Reads(ram, root, view) && a < 0x1_0000_0000 && used <= 4096
    ensures Around(page, line, used, 4096 - used)
    ensures ok ==> used + len < 4096 && StringAt(view, a, len) && Fetched(view, a, line, used, len + 1)
    ensures !ok ==> forall k :: 0 <= k < 4096 - used ==> !StringAt(view, a, k)
  {
    var buf := new Byte[4096](i requires 0 <= i < 4096 => page[i]);
    assert buf[..] == page;
    var max := 4096 - used;
    ok, len := Scan(ram, root, view, buf, used, a, max);
    line := buf[..];
  }

  /** strlen finds the string that was copied. */
  lemma LineString(view: View, a: nat, line: Page, used: nat, len: nat, end: nat)
    requires a < 0x1_0000_0000 && end == used + len + 1 && end <= 4096
    requires StringAt(view, a, len) && Fetched(view, a, line, used, len + 1)
    ensures var s := line[used..used + len];
            |s| == len && CString(line, used) == s && StringIs(view, a, s) && Holds(line, used, s, end)
  {
    FetchedString(view, a, line, used, len, end);
    CStringIs(line, used, line[used..used + len]);
  }

  /** copyinstr of one argument into the rest of page b. */
  method ReadArg(m: Machine, root: nat, ghost view: View, b: nat, a: nat, used: nat)
    returns (ok: bool, used': nat, ghost s: Bytes)
    requires m.Valid() && Reads(m.ram, root, view) && InRam(b) && a < 0x1_0000_0000 && used <= 4096
    modifies m`ram
    ensures m.Valid() && m.Free() == old(m.Free()) && OnlyPage(old(m.ram), m.ram, b)
    ensures b in old(m.ram) && Around(old(m.ram)[b], m.ram[b], used, 4096 - used)
    ensures ok ==> used' == used + |s| + 1 && used' <= 4096 && StringIs(view, a, s) && Holds(m.ram[b], used, s, used')
    ensures !ok ==> forall k :: 0 <= k < 4096 - used ==> !StringAt(view, a, k)
  {
    var page, line := m.ram[b], ZERO_PAGE;
    ghost var len;
    ok, line, len := ScanLine(m.ram, root, view, page, a, used);
    PageNumber(b);
    WholePage(page, line);
    m.Store(b * 4096, line);
    used', s := used, [];
    if ok {
      ghost var end := used + len + 1;
      LineString(view, a, line, used, len, end);
      s := line[used..used + len];
      used' := used + |CString(line, used)| + 1;
    }
  }

  /** The next string, found and copied. */
  lemma GatheredOne(view: View, list: nat, args: seq<Bytes>, i: nat, i': nat, used: nat, used': nat, cand: seq<Bytes>,
                    want: bool, s: Bytes, buf: Bytes, buf': Bytes, starts: seq<nat>)
    requires 0 < list < 0x1_0000_0000 && Gathered(view, list, args, i, used, cand, want) && i < MAXARG && i' == i + 1
    requires want ==> Wanted(view, list, cand)
    requires UserArg(view, list, i, s) && used' == used + |s| + 1
    requires Packed(buf, starts, args, used) && |buf| == 4096 && used <= used' <= 4096
    requires Around(buf, buf', used, 4096 - used) && Holds(buf', used, s, used')
    ensures Gathered(view, list, args + [s], i', used', cand, want)
    ensures Packed(buf', starts + [used], args + [s], used')
  {
    GatheredNext(view, list, args, i, i', used, used', cand, want, s);
    PackedNext(buf, buf', starts, args, used, used', 4096 - used, s);
  }

  /** One round of sys_exec's loop: stop is set at the end of the list. */
  method GatherNext(m: Machine, root: nat, ghost view: View, b: nat, list: nat, i: nat, used: nat,
                    ghost starts: seq<nat>, ghost i': nat, ghost args: seq<Bytes>, ghost cand: seq<Bytes>,
                    ghost want: bool)
    returns (ok: bool, stop: bool, used': nat, ghost s: Bytes)
    requires m.Valid() && Reads(m.ram, root, view) && InRam(b) && used <= 4096 && 0 < list < 0x1_0000_0000
    requires i' == i + 1
    requires Gathered(view, list, args, i, used, cand, want) && Packed(m.ram[b], starts, args, used)
    requires want ==> Wanted(view, list, cand)
    modifies m`ram
    ensures m.Valid() && m.Free() == old(m.Free()) && OnlyPage(old(m.ram), m.ram, b)
    ensures !ok ==> !want
    ensures ok && stop ==> m.ram == old(m.ram) && UserArgv(view, list, args) && (want ==> args == cand)
    ensures ok && !stop ==> i < MAXARG && used' <= 4096 && Gathered(view, list, args + [s], i', used', cand, want)
    ensures ok && !stop ==> Packed(m.ram[b], starts + [used], args + [s], used')
  {
    used', s, stop := used, [], false;
    var a, ptr := Plus(list, 4 * i), 0;
    if want {
      WantedArg(view, list, cand, i);
    }
    ok, ptr := ReadWord(m.ram, root, view, a);
    if !ok {
      return;
    }
    if ptr == 0 {
      GatheredAll(view, list, args, i, used, cand, want);
      stop := true;
      return;
    }
    if i == MAXARG {
      ok := false;
      return;
    }
    ghost var was := m.ram[b];
    ok, used', s := ReadArg(m, root, view, b, ptr, used);
    if !ok {
      GatheredShort(view, list, args, i, used, cand, want);
      return;
    }
    GatheredOne(view, list, args, i, i', used, used', cand, want, s, was, m.ram[b], starts);
  }

  lemma GatheredNone(view: View, list: nat, cand: seq<Bytes>, want: bool, buf: Bytes)
    requires list < 0x1_0000_0000 && (want ==> Wanted(view, list, cand))
    ensures list != 0 ==> Gathered(view, list, [], 0, 0, cand, want)
    ensures Packed(buf, [], [], 0) && (list == 0 ==> Wanted(view, list, []) && (want ==> [] == cand))
  {
  }

  lemma OnlyPageTrans(ram0: Ram, ram1: Ram, ram2: Ram, b: nat)
    requires OnlyPage(ram0, ram1, b) && OnlyPage(ram1, ram2, b)
    ensures OnlyPage(ram0, ram2, b)
  {
  }

  lemma OnlyPageRefl(ram: Ram, b: nat)
    requires b in ram
    ensures OnlyPage(ram, ram, b)
  {
  }

  /** sys_exec's loop: it gathers the caller's argument list exactly if there is one (of at most MAXARG strings)
      whose strings fit in a page.  The strings are then in page b, where the pointers say, and no other page
      was written. */
  method GatherArgs(m: Machine, root: nat, ghost view: View, b: nat, list: nat, ghost cand: seq<Bytes>,
                    ghost want: bool, ghost ram0: Ram, ghost free: set<nat>)
    returns (ok: bool, starts: seq<nat>, ghost args: seq<Bytes>, ghost top: nat)
    requires m.Valid() && m.ram == ram0 && m.Free() == free && BufferApart(ram0, free, root, m.first, b, view)
    requires list < 0x1_0000_0000 && (want ==> Wanted(view, list, cand))
    modifies m`ram
    ensures m.Valid() && m.Free() == free && OnlyPage(ram0, m.ram, b)
    ensures ok ==> Wanted(view, list, args) && Packed(m.ram[b], starts, args, top)
    ensures want ==> ok && args == cand
  {
    GatheredNone(view, list, cand, want, m.ram[b]);
    OnlyPageRefl(ram0, b);
    starts, args, top := [], [], 0;
    if list == 0 {
      ok := true;
      return;
    }
    var i, used, stop := 0, 0, false;
    while !stop
      invariant used <= 4096 && i <= MAXARG && m.Valid() && m.Free() == free && OnlyPage(ram0, m.ram, b)
      invariant stop ==> UserArgv(view, list, args) && (want ==> args == cand)
      invariant Gathered(view, list, args, i, used, cand, want)
      invariant Packed(m.ram[b], starts, args, used)
      decreases MAXARG - i, !stop
    {
      var used', i' := 0, i + 1;
      ghost var s, ram1 := [], m.ram;
      StillReads(ram0, free, root, m.first, b, view, ram1);
      ok, stop, used', s := GatherNext(m, root, view, b, list, i, used, starts, i', args, cand, want);
      OnlyPageTrans(ram0, ram1, m.ram, b);
      if !ok {
        return;
      }
      if !stop {
        starts, args := starts + [used], args + [s];
        used, i := used', i';
      }
    }
    ok, top := true, used;
  }
}

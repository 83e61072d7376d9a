/** kernel/mem.c: the bitmap allocator of physical pages and the memory primitives. */
module Memory {
  import opened Layout

  /** Page p with the bytes from off on replaced by src. */
  function Blit(p: Page, off: nat, src: seq<Byte>): (q: Page)
    requires off + |src| <= 4096
    ensures forall i :: 0 <= i < 4096 ==> q[i] == if off <= i < off + |src| then src[i - off] else p[i]
  {
    p[..off] + src + p[off + |src|..]
  }

  /** ram and ram' agree outside the pages in s. */
  ghost predicate SameOutside(ram: Ram, ram': Ram, s: set<nat>) {
    forall p :: p in ram && p !in s ==> p in ram' && ram'[p] == ram[p]
  }

  predicate Between(p: nat, a: nat, b: nat) {
    a <= p < b
  }

  ghost function PagesIn(a: nat, b: nat): set<nat> {
    set p: nat | p < b && Between(p, a, b)
  }

  /** From ram to ram', the pages lo <= p < hi became zero and no other page changed. */
  ghost predicate RangeZeroed(ram: Ram, ram': Ram, lo: nat, hi: nat) {
    && ram'.Keys == ram.Keys
    && forall p :: p in ram ==> ram'[p] == if Between(p, lo, hi) then ZERO_PAGE else ram[p]
  }

  lemma PageNumber(p: nat)
    ensures p * 4096 % 4096 == 0 && p * 4096 / 4096 == p
  {
  }

  lemma PagesNext(lo: nat, p: nat)
    requires lo <= p
    ensures PagesIn(lo, p + 1) == PagesIn(lo, p) + {p}
  {
  }

  class Machine {
    var ram: Ram
    const bitmap: array<bool>
    const first: nat  // start_page / PAGE_SIZE

    ghost predicate Valid()
      reads this`ram, bitmap
    {
      && bitmap.Length == NUM_PAGES && RAM_FIRST <= first <= RAM_END
      && (forall p :: p in ram <==> InRam(p))
      && (forall i :: 0 <= i < NUM_PAGES && bitmap[i] ==> first <= i + RAM_FIRST)
    }

    /** The pages marked available. */
    ghost function Free(): set<nat>
      requires bitmap.Length == NUM_PAGES
      reads bitmap
    {
      set p: nat | p < RAM_END && InRam(p) && bitmap[p - RAM_FIRST]
    }

    predicate Allocatable(p: nat) {
      first <= p < RAM_END
    }

    /** init_bitmap: the pages from the end of the kernel image up are free, and zero; no other page is. */
    constructor (end: nat, initial: Ram)
      requires MEM_START <= end <= MEM_END && forall p :: p in initial <==> InRam(p)
      ensures Valid() && fresh(bitmap) && first == PageUp(end) / 4096
      ensures Free() == PagesIn(first, RAM_END)
      ensures forall p :: Allocatable(p) ==> ram[p] == ZERO_PAGE
    {
      ram := initial;
      bitmap := new bool[NUM_PAGES](_ => false);
      first := PageUp(end) / 4096;
      new;
      PageNumber(first);
      FreeRange(first * 4096, MEM_END);
    }

    /** kfree_range: frees and zeroes the whole pages between start and end, and no other. */
    method FreeRange(start: nat, end: nat)
      requires Valid() && start <= MEM_END && end <= MEM_END
      requires forall p :: Between(p, PageUp(start) / 4096, end / 4096) ==> Allocatable(p) && p !in Free()
      modifies this`ram, bitmap
      ensures Valid()
      ensures Free() == old(Free()) + PagesIn(PageUp(start) / 4096, end / 4096)
      ensures RangeZeroed(old(ram), ram, PageUp(start) / 4096, end / 4096)
    {
      var curr, last := PageUp(start) / 4096, end / 4096;
      ghost var lo, ram0, free0 := curr, ram, Free();
      while curr < last
        invariant lo <= curr && (curr <= last || curr == lo)
        invariant Valid() && Free() == free0 + PagesIn(lo, curr)
        invariant RangeZeroed(ram0, ram, lo, curr)
      {
        assert Between(curr, lo, last);
        PageNumber(curr);
        Kfree(curr * 4096);
        PagesNext(lo, curr);
        curr := curr + 1;
      }
      assert PagesIn(lo, curr) == PagesIn(lo, last);
    }

    /** kalloc: the lowest free page, or 0 exactly when there is none.  Contents are left as they were. */
    method Kalloc() returns (pa: nat)
      requires Valid()
      modifies bitmap
      ensures Valid()
      ensures pa == 0 ==> old(Free()) == {} && Free() == {}
      ensures pa != 0 ==> pa % 4096 == 0 && pa < MEM_END && Allocatable(pa / 4096) && pa / 4096 in old(Free())
                          && (forall q :: q in old(Free()) ==> pa / 4096 <= q)
                          && Free() == old(Free()) - {pa / 4096}
    {
      var i := 0;
      while i < NUM_PAGES
        invariant 0 <= i <= NUM_PAGES && Valid() && Free() == old(Free())
        invariant forall j :: 0 <= j < i ==> !bitmap[j]
      {
        if bitmap[i] {
          bitmap[i] := false;
          pa := MEM_START + i * 4096;
          assert pa / 4096 == RAM_FIRST + i;
          return;
        }
        i := i + 1;
      }
      pa := 0;
    }

    /** kfree: its panics (alignment, range, double free) are the preconditions. */
    method Kfree(pa: nat)
      requires Valid() && pa % 4096 == 0 && Allocatable(pa / 4096) && pa / 4096 !in Free()
      modifies this`ram, bitmap
      ensures Valid() && Free() == old(Free()) + {pa / 4096} && ram == old(ram)[pa / 4096 := ZERO_PAGE]
    {
      var i := pa / 4096 - RAM_FIRST;
      ZeroPage(pa);
      bitmap[i] := true;
    }

    /** memset(pa, 0, PAGE_SIZE). */
    method ZeroPage(pa: nat)
      requires Valid() && pa % 4096 == 0 && InRam(pa / 4096)
      modifies this`ram
      ensures Valid() && ram == old(ram)[pa / 4096 := ZERO_PAGE] && Free() == old(Free())
    {
      var p := pa / 4096;
      var i := 0;
      while i < 4096
        invariant 0 <= i <= 4096 && Valid()
        invariant ram == old(ram)[p := ram[p]]
        invariant forall j :: 0 <= j < i ==> ram[p][j] == 0
      {
        ram := ram[p := ram[p][i := 0]];
        i := i + 1;
      }
      assert ram[p] == ZERO_PAGE;
    }

    /** memmove(pa, src, n) for a destination that stays within one page and a separate source. */
    method Store(pa: nat, src: seq<Byte>)
      requires Valid() && InRam(pa / 4096) && pa % 4096 + |src| <= 4096
      modifies this`ram
      ensures Valid() && ram == old(ram)[pa / 4096 := Blit(old(ram)[pa / 4096], pa % 4096, src)]
      ensures Free() == old(Free())
    {
      var p, off := pa / 4096, pa % 4096;
      var i := 0;
      assert Blit(ram[p], off, src[..0]) == ram[p];
      while i < |src|
        invariant 0 <= i <= |src| && Valid()
        invariant ram == old(ram)[p := Blit(old(ram)[p], off, src[..i])]
      {
        ram := ram[p := ram[p][off + i := src[i]]];
        assert src[..i + 1] == src[..i] + [src[i]];
        assert ram[p] == Blit(old(ram)[p], off, src[..i + 1]);
        i := i + 1;
      }
      assert src[..i] == src;
    }
  }

  /** memmove with both ranges in one buffer: correct also when they overlap. */
  method MemMove(mem: array<Byte>, dst: nat, src: nat, n: nat)
    requires dst + n <= mem.Length && src + n <= mem.Length
    modifies mem
    ensures mem[dst..dst + n] == old(mem[src..src + n])
    ensures forall i :: 0 <= i < mem.Length && !(dst <= i < dst + n) ==> mem[i] == old(mem[i])
  {
    ghost var was := mem[..];
    if src < dst && src + n > dst {
      var k := n;
      while k > 0
        invariant 0 <= k <= n
        invariant forall i :: 0 <= i < dst + k ==> mem[i] == was[i]
        invariant forall i :: dst + n <= i < mem.Length ==> mem[i] == was[i]
        invariant forall i :: dst + k <= i < dst + n ==> mem[i] == was[i - dst + src]
      {
        k := k - 1;
        mem[dst + k] := mem[src + k];
      }
    } else {
      var k := 0;
      while k < n
        invariant 0 <= k <= n
        invariant forall i :: 0 <= i < dst ==> mem[i] == was[i]
        invariant forall i :: dst + k <= i < mem.Length ==> mem[i] == was[i]
        invariant forall i :: dst <= i < dst + k ==> mem[i] == was[i - dst + src]
      {
        mem[dst + k] := mem[src + k];
        k := k + 1;
      }
    }
  }
}

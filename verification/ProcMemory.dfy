/** kernel/proc.c: the memory a process slot owns, and the partition of physical pages among the slots. */
module ProcMemory {
  import opened Layout
  import opened Memory
  import opened Space
  import opened UserSpace
  import opened CopySpace

  /** The memory fields of struct proc; pages are physical page numbers, 0 stands for NULL. */
  datatype Slot = Slot(used: bool, pt: nat, kstack: nat, tf: nat, sz: nat, name: seq<Byte>)

  const EMPTY: Slot := Slot(false, 0, 0, 0, 0, [])

  ghost function One(p: nat): set<nat> {
    if p == 0 then {} else {p}
  }

  ghost function PtPages(ram: Ram, pt: nat): set<nat> {
    if pt == 0 || pt !in ram then {} else SpacePages(ram, pt)
  }

  ghost function SlotPages(ram: Ram, s: Slot): set<nat> {
    PtPages(ram, s.pt) + One(s.kstack) + One(s.tf)
  }

  ghost predicate PageHeld(p: nat, free: set<nat>, pages: set<nat>, first: nat) {
    p != 0 ==> first <= p < RAM_END && p !in free && p !in pages
  }

  ghost predicate PtOk(ram: Ram, free: set<nat>, pt: nat, sz: nat, first: nat) {
    pt != 0 ==> SpaceOk(ram, free, pt, first) && sz % 4096 == 0 && sz <= UART_0 && EndsAt(UserView(ram, pt), sz)
  }

  /** What a slot owns is allocated and used once. */
  ghost predicate SlotOk(ram: Ram, free: set<nat>, s: Slot, first: nat) {
    && PtOk(ram, free, s.pt, s.sz, first)
    && PageHeld(s.kstack, free, PtPages(ram, s.pt), first)
    && PageHeld(s.tf, free, PtPages(ram, s.pt) + One(s.kstack), first)
    && (!s.used ==> s == EMPTY)
  }

  lemma SlotDisjoint(ram: Ram, free: set<nat>, s: Slot, first: nat)
    requires SlotOk(ram, free, s, first)
    ensures SlotPages(ram, s) !! free
  {
    if s.pt != 0 {
      SpaceDisjoint(ram, free, s.pt, first);
    }
  }

  /** What happens outside a slot's pages leaves the slot, its view and its trapframe alone. */
  lemma SlotFrame(ram: Ram, free: set<nat>, ram': Ram, free': set<nat>, s: Slot, first: nat, x: set<nat>)
    requires SlotOk(ram, free, s, first) && SameOutside(ram, ram', x) && x !! SlotPages(ram, s)
    requires free' !! SlotPages(ram, s)
    requires AllRam(ram) && AllRam(ram') && RAM_FIRST <= first
    ensures SlotOk(ram', free', s, first) && SlotPages(ram', s) == SlotPages(ram, s)
    ensures s.pt != 0 ==> UserView(ram', s.pt) == UserView(ram, s.pt)
    ensures s.tf != 0 ==> ram'[s.tf] == ram[s.tf]
  {
    if s.pt != 0 {
      SpaceFrame(ram, free, ram', free', s.pt, first, x);
    }
    if s.tf != 0 {
      assert s.tf in SlotPages(ram, s) && InRam(s.tf);
    }
    if s.kstack != 0 {
      assert s.kstack in SlotPages(ram, s) && InRam(s.kstack);
    }
  }

  // ---------------------------------------------------------------- the partition

  ghost predicate OwnedBySome(own: seq<set<nat>>, p: nat) {
    exists i :: 0 <= i < |own| && p in own[i]
  }

  /** Every page in `all` is free or in exactly one of the sets, and no other page is. */
  ghost predicate Covers(own: seq<set<nat>>, free: set<nat>, all: set<nat>) {
    && (forall i :: 0 <= i < |own| ==> own[i] !! free)
    && (forall i, j :: 0 <= i < j < |own| ==> own[i] !! own[j])
    && (forall p :: p in all <==> p in free || OwnedBySome(own, p))
  }

  /** What each slot owns. */
  ghost function Holdings(ram: Ram, slots: seq<Slot>): (own: seq<set<nat>>)
    ensures |own| == |slots| && forall i :: 0 <= i < |slots| ==> own[i] == SlotPages(ram, slots[i])
  {
    if slots == [] then [] else Holdings(ram, slots[..|slots| - 1]) + [SlotPages(ram, slots[|slots| - 1])]
  }

  /** Every page in `all` is free or belongs to exactly one slot, and no other page does. */
  ghost predicate Partition(ram: Ram, free: set<nat>, slots: seq<Slot>, first: nat, all: set<nat>) {
    && (forall i :: 0 <= i < |slots| ==> SlotOk(ram, free, slots[i], first))
    && Covers(Holdings(ram, slots), free, all)
  }

  /** One slot traded pages with free memory, and nothing else was touched. */
  ghost predicate Trade(ram: Ram, free: set<nat>, s: Slot, ram': Ram, free': set<nat>, s': Slot, first: nat) {
    && SlotOk(ram', free', s', first)
    && free' + SlotPages(ram', s') == free + SlotPages(ram, s)
    && SameOutside(ram, ram', free + SlotPages(ram, s))
  }

  /** Every slot but i sees the same memory, and has the same trapframe, in ram and in ram'. */
  ghost predicate OthersKept(ram: Ram, ram': Ram, slots: seq<Slot>, i: nat) {
    && (forall j :: 0 <= j < |slots| && j != i && slots[j].pt in ram ==>
          slots[j].pt in ram' && UserView(ram', slots[j].pt) == UserView(ram, slots[j].pt))
    && (forall j :: 0 <= j < |slots| && j != i && slots[j].tf in ram ==>
          slots[j].tf in ram' && ram'[slots[j].tf] == ram[slots[j].tf])
  }

  lemma OthersFramed(ram: Ram, free: set<nat>, ram': Ram, free': set<nat>, slots: seq<Slot>, i: nat, s': Slot,
                     first: nat, all: set<nat>, j: nat)
    requires Partition(ram, free, slots, first, all) && i < |slots| && j < |slots| && j != i
    requires AllRam(ram) && AllRam(ram') && RAM_FIRST <= first
    requires Trade(ram, free, slots[i], ram', free', s', first)
    ensures SlotOk(ram', free', slots[j], first) && SlotPages(ram', slots[j]) == SlotPages(ram, slots[j])
    ensures slots[j].pt != 0 ==> UserView(ram', slots[j].pt) == UserView(ram, slots[j].pt)
    ensures slots[j].tf != 0 ==> ram'[slots[j].tf] == ram[slots[j].tf]
  {
    SlotDisjoint(ram, free, slots[j], first);
    assert Holdings(ram, slots)[i] !! Holdings(ram, slots)[j];
    SlotFrame(ram, free, ram', free', slots[j], first, free + SlotPages(ram, slots[i]));
  }

  lemma StillOwned(own: seq<set<nat>>, free: set<nat>, own': seq<set<nat>>, free': set<nat>, i: nat, p: nat)
    requires i < |own| == |own'| && forall j :: 0 <= j < |own| && j != i ==> own'[j] == own[j]
    requires free' + own'[i] == free + own[i]
    requires p in free || OwnedBySome(own, p)
    ensures p in free' || OwnedBySome(own', p)
  {
    if p in free + own[i] {
      assert p in free' + own'[i];
    } else {
      var j :| 0 <= j < |own| && p in own[j];
      assert p in own'[j];
    }
  }

  /** Trading pages between free memory and one holder keeps the cover. */
  lemma CoversStep(own: seq<set<nat>>, free: set<nat>, own': seq<set<nat>>, free': set<nat>, i: nat, all: set<nat>)
    requires Covers(own, free, all) && i < |own| == |own'|
    requires forall j :: 0 <= j < |own| && j != i ==> own'[j] == own[j]
    requires free' + own'[i] == free + own[i] && free' !! own'[i]
    ensures Covers(own', free', all)
  {
    forall j | 0 <= j < |own| && j != i
      ensures own'[j] !! free' && own'[j] !! own'[i]
    {
      assert own[i] !! own[j] && own[j] !! free;
      assert own[j] !! free' + own'[i];
    }
    forall p
      ensures p in all <==> p in free' || OwnedBySome(own', p)
    {
      if p in free || OwnedBySome(own, p) {
        StillOwned(own, free, own', free', i, p);
      }
      if p in free' || OwnedBySome(own', p) {
        StillOwned(own', free', own, free, i, p);
      }
    }
  }

  /** The page partition survives every operation that trades pages between one slot and free memory,
      and no other slot sees anything of it. */
  lemma PartitionStep(ram: Ram, free: set<nat>, ram': Ram, free': set<nat>, slots: seq<Slot>, i: nat, s': Slot,
                      first: nat, all: set<nat>)
    requires Partition(ram, free, slots, first, all) && i < |slots|
    requires AllRam(ram) && AllRam(ram') && RAM_FIRST <= first
    requires Trade(ram, free, slots[i], ram', free', s', first)
    ensures Partition(ram', free', slots[i := s'], first, all)
    ensures OthersKept(ram, ram', slots, i)
  {
    var slots' := slots[i := s'];
    forall j | 0 <= j < |slots| && j != i
      ensures SlotOk(ram', free', slots[j], first) && SlotPages(ram', slots[j]) == SlotPages(ram, slots[j])
      ensures slots[j].tf in ram ==> slots[j].tf in ram' && ram'[slots[j].tf] == ram[slots[j].tf]
      ensures slots[j].pt in ram ==> slots[j].pt in ram' && UserView(ram', slots[j].pt) == UserView(ram, slots[j].pt)
    {
      OthersFramed(ram, free, ram', free', slots, i, s', first, all, j);
    }
    SlotDisjoint(ram', free', s', first);
    CoversStep(Holdings(ram, slots), free, Holdings(ram', slots'), free', i, all);
  }

  // ---------------------------------------------------------------- releaseproc

  /** The slot gave some of its pages back; nothing but those was written. */
  ghost predicate GaveBack(ram: Ram, free: set<nat>, s: Slot, ram': Ram, free': set<nat>, s': Slot, first: nat) {
    && SlotOk(ram', free', s', first)
    && free' + SlotPages(ram', s') == free + SlotPages(ram, s)
    && SlotPages(ram', s') <= SlotPages(ram, s)
    && SameOutside(ram, ram', SlotPages(ram, s))
  }

  lemma GaveBackTrans(ram0: Ram, free0: set<nat>, s0: Slot, ram1: Ram, free1: set<nat>, s1: Slot, ram2: Ram,
                      free2: set<nat>, s2: Slot, first: nat)
    requires GaveBack(ram0, free0, s0, ram1, free1, s1, first) && GaveBack(ram1, free1, s1, ram2, free2, s2, first)
    ensures GaveBack(ram0, free0, s0, ram2, free2, s2, first)
  {
  }

  lemma TfGone(ram: Ram, free: set<nat>, s: Slot, ram': Ram, first: nat)
    requires SlotOk(ram, free, s, first) && AllRam(ram) && RAM_FIRST <= first && s.tf != 0
    requires ram' == ram[s.tf := ZERO_PAGE]
    ensures GaveBack(ram, free, s, ram', free + {s.tf}, s.(tf := 0), first)
  {
    var s' := s.(tf := 0);
    SlotDisjoint(ram, free, s, first);
    SlotFrame(ram, free, ram', free + {s.tf}, s', first, {s.tf});
  }

  lemma KstackGone(ram: Ram, free: set<nat>, s: Slot, ram': Ram, first: nat)
    requires SlotOk(ram, free, s, first) && AllRam(ram) && RAM_FIRST <= first && s.kstack != 0
    requires ram' == ram[s.kstack := ZERO_PAGE]
    ensures GaveBack(ram, free, s, ram', free + {s.kstack}, s.(kstack := 0), first)
  {
    var s' := s.(kstack := 0);
    SlotDisjoint(ram, free, s, first);
    SlotFrame(ram, free, ram', free + {s.kstack}, s', first, {s.kstack});
  }

  lemma PtGone(ram: Ram, free: set<nat>, s: Slot, ram': Ram, first: nat)
    requires SlotOk(ram, free, s, first) && AllRam(ram) && AllRam(ram') && RAM_FIRST <= first && s.pt != 0
    requires SameOutside(ram, ram', SpacePages(ram, s.pt))
    ensures GaveBack(ram, free, s, ram', free + SpacePages(ram, s.pt), s.(pt := 0), first)
  {
    var s' := s.(pt := 0);
    SlotDisjoint(ram, free, s, first);
    SlotFrame(ram, free, ram', free + SpacePages(ram, s.pt), s', first, SpacePages(ram, s.pt));
  }

  lemma GaveBackNone(ram: Ram, free: set<nat>, s: Slot, first: nat)
    requires SlotOk(ram, free, s, first)
    ensures GaveBack(ram, free, s, ram, free, s, first)
  {
  }

  method DropTf(m: Machine, s: Slot)
    requires m.Valid() && SlotOk(m.ram, m.Free(), s, m.first)
    modifies m, m.bitmap
    ensures m.Valid()
    ensures GaveBack(old(m.ram), old(m.Free()), s, m.ram, m.Free(), s.(tf := 0), m.first)
  {
    GaveBackNone(m.ram, m.Free(), s, m.first);
    if s.tf != 0 {
      AddressOfPage(s.tf);
      TfGone(m.ram, m.Free(), s, m.ram[s.tf := ZERO_PAGE], m.first);
      m.Kfree(s.tf * 4096);
    } else {
      assert s == s.(tf := 0);
    }
  }

  method DropKstack(m: Machine, s: Slot)
    requires m.Valid() && SlotOk(m.ram, m.Free(), s, m.first)
    modifies m, m.bitmap
    ensures m.Valid()
    ensures GaveBack(old(m.ram), old(m.Free()), s, m.ram, m.Free(), s.(kstack := 0), m.first)
  {
    GaveBackNone(m.ram, m.Free(), s, m.first);
    if s.kstack != 0 {
      AddressOfPage(s.kstack);
      KstackGone(m.ram, m.Free(), s, m.ram[s.kstack := ZERO_PAGE], m.first);
      m.Kfree(s.kstack * 4096);
    } else {
      assert s == s.(kstack := 0);
    }
  }

  /** What kexit and releaseproc do with the address space. */
  method DropPt(m: Machine, s: Slot)
    requires m.Valid() && SlotOk(m.ram, m.Free(), s, m.first)
    modifies m, m.bitmap
    ensures m.Valid()
    ensures GaveBack(old(m.ram), old(m.Free()), s, m.ram, m.Free(), s.(pt := 0), m.first)
    ensures m.Free() == old(m.Free() + PtPages(m.ram, s.pt))
  {
    GaveBackNone(m.ram, m.Free(), s, m.first);
    if s.pt != 0 {
      ghost var ram0, free0 := m.ram, m.Free();
      UvmFree(m, s.pt, s.sz);
      PtGone(ram0, free0, s, m.ram, m.first);
    } else {
      assert s == s.(pt := 0);
    }
  }

  /** releaseproc: exactly the slot's pages become free. */
  method ReleaseProc(m: Machine, s: Slot)
    requires m.Valid() && SlotOk(m.ram, m.Free(), s, m.first)
    modifies m, m.bitmap
    ensures m.Valid()
    ensures m.Free() == old(m.Free() + SlotPages(m.ram, s))
    ensures SameOutside(old(m.ram), m.ram, old(SlotPages(m.ram, s)))
  {
    ghost var ram0, free0 := m.ram, m.Free();
    DropTf(m, s);
    ghost var ram1, free1, s1 := m.ram, m.Free(), s.(tf := 0);
    DropPt(m, s.(tf := 0));
    ghost var ram2, free2, s2 := m.ram, m.Free(), s1.(pt := 0);
    GaveBackTrans(ram0, free0, s, ram1, free1, s1, ram2, free2, s2, m.first);
    DropKstack(m, s.(tf := 0).(pt := 0));
    GaveBackTrans(ram0, free0, s, ram2, free2, s2, m.ram, m.Free(), s2.(kstack := 0), m.first);
  }
}

/** Two-level Sv32 page tables stored in RAM pages, and the flat map they stand for. */
module PageTable {
  import opened Layout

  /** The first-level entry for table index i. */
  function Entry1(ram: Ram, root: nat, i: nat): nat
    requires root in ram && i < 1024
  {
    Word(ram[root], i)
  }

  /** The Sv32 walk for virtual page v: the leaf entry, or 0 where there is no second-level table. */
  function Leaf(ram: Ram, root: nat, v: nat): nat
    requires root in ram && v < VPNS
  {
    var e := Entry1(ram, root, v / 1024);
    if IsValid(e) && Ppn(e) in ram then Word(ram[Ppn(e)], v % 1024) else 0
  }

  /** The second-level tables are RAM pages, all different and none of them the root. */
  predicate TreeOk(ram: Ram, root: nat) {
    && root in ram
    && (forall i :: 0 <= i < 1024 && IsValid(Entry1(ram, root, i)) ==>
          Ppn(Entry1(ram, root, i)) in ram && Ppn(Entry1(ram, root, i)) != root)
    && (forall i, j :: 0 <= i < j < 1024 && IsValid(Entry1(ram, root, i)) && IsValid(Entry1(ram, root, j)) ==>
          Ppn(Entry1(ram, root, i)) != Ppn(Entry1(ram, root, j)))
  }

  /** The pages that hold the tables. */
  ghost function Tables(ram: Ram, root: nat): set<nat>
    requires root in ram
  {
    {root} + set i | 0 <= i < 1024 && IsValid(Entry1(ram, root, i)) :: Ppn(Entry1(ram, root, i))
  }

  /** The first-level indices that have a second-level table. */
  ghost function TableSet(ram: Ram, root: nat): set<nat>
    requires root in ram
  {
    set i | 0 <= i < 1024 && IsValid(Entry1(ram, root, i))
  }

  /** The meaning of a page table: the finite map from mapped virtual pages to their leaf entries. */
  ghost function Flat(ram: Ram, root: nat): map<nat, nat>
    requires root in ram
  {
    map v: nat | v < VPNS && IsValid(Leaf(ram, root, v)) :: Leaf(ram, root, v)
  }

  /** Memory changes outside the tables do not change the address space. */
  lemma TreeFrame(ram: Ram, ram': Ram, root: nat)
    requires TreeOk(ram, root)
    requires forall t :: t in Tables(ram, root) ==> t in ram' && ram'[t] == ram[t]
    ensures TreeOk(ram', root) && Tables(ram', root) == Tables(ram, root) && Flat(ram', root) == Flat(ram, root)
    ensures TableSet(ram', root) == TableSet(ram, root)
  {
    assert root in Tables(ram, root);
    assert forall i :: 0 <= i < 1024 ==> Entry1(ram', root, i) == Entry1(ram, root, i);
    forall i | 0 <= i < 1024 && IsValid(Entry1(ram, root, i))
      ensures Ppn(Entry1(ram, root, i)) in ram' && ram'[Ppn(Entry1(ram, root, i))] == ram[Ppn(Entry1(ram, root, i))]
    {
      assert Ppn(Entry1(ram, root, i)) in Tables(ram, root);
    }
    assert forall v :: 0 <= v < VPNS ==> Leaf(ram', root, v) == Leaf(ram, root, v);
  }

  /** Writing the entry of v in its existing second-level table changes the translation of v alone. */
  lemma SetLeaf(ram: Ram, root: nat, v: nat, t: nat, pte: nat)
    requires TreeOk(ram, root) && v < VPNS && pte < 0x1_0000_0000
    requires IsValid(Entry1(ram, root, v / 1024)) && t == Ppn(Entry1(ram, root, v / 1024))
    ensures var ram' := ram[t := SetWord(ram[t], v % 1024, pte)];
            && TreeOk(ram', root) && Tables(ram', root) == Tables(ram, root)
            && TableSet(ram', root) == TableSet(ram, root)
            && Flat(ram', root) == if IsValid(pte) then Flat(ram, root)[v := pte] else Flat(ram, root) - {v}
  {
    var ram' := ram[t := SetWord(ram[t], v % 1024, pte)];
    assert forall i :: 0 <= i < 1024 ==> Entry1(ram', root, i) == Entry1(ram, root, i);
    forall w | 0 <= w < VPNS
      ensures Leaf(ram', root, w) == if w == v then pte else Leaf(ram, root, w)
    {
      var e := Entry1(ram, root, w / 1024);
      if IsValid(e) && Ppn(e) == t {
        assert w / 1024 == v / 1024;
        WordAfterSet(ram[t], v % 1024, pte, w % 1024);
      }
    }
  }

  /** From ram to ram', page t was made the empty second-level table i of root, by entry e. */
  ghost predicate TableAdded(ram: Ram, ram': Ram, root: nat, i: nat, t: nat, e: nat) {
    && i < 1024 && e < 0x1_0000_0000 && root in ram && t != root && IsValid(e) && Ppn(e) == t
    && ram' == ram[t := ZERO_PAGE][root := SetWord(ram[root], i, e)]
  }

  lemma AddedEntry(ram: Ram, ram': Ram, root: nat, i: nat, t: nat, e: nat, j: nat)
    requires j < 1024 && TableAdded(ram, ram', root, i, t, e)
    ensures Entry1(ram', root, j) == if j == i then e else Entry1(ram, root, j)
  {
    WordAfterSet(ram[root], i, e, j);
  }

  lemma AddedTree(ram: Ram, ram': Ram, root: nat, i: nat, t: nat, e: nat)
    requires TreeOk(ram, root) && i < 1024 && !IsValid(Entry1(ram, root, i))
    requires t in ram && t !in Tables(ram, root) && TableAdded(ram, ram', root, i, t, e)
    ensures TreeOk(ram', root)
    ensures Tables(ram', root) == Tables(ram, root) + {t} && TableSet(ram', root) == TableSet(ram, root) + {i}
  {
    forall j | 0 <= j < 1024
      ensures Entry1(ram', root, j) == if j == i then e else Entry1(ram, root, j)
    {
      AddedEntry(ram, ram', root, i, t, e, j);
    }
    assert forall j :: 0 <= j < 1024 && IsValid(Entry1(ram, root, j)) ==>
                         Ppn(Entry1(ram, root, j)) in Tables(ram, root);
  }

  lemma AddedLeaf(ram: Ram, ram': Ram, root: nat, i: nat, t: nat, e: nat, w: nat)
    requires TreeOk(ram, root) && i < 1024 && !IsValid(Entry1(ram, root, i))
    requires t in ram && t !in Tables(ram, root) && TableAdded(ram, ram', root, i, t, e) && w < VPNS
    ensures Leaf(ram', root, w) == Leaf(ram, root, w)
  {
    var d := Entry1(ram, root, w / 1024);
    AddedEntry(ram, ram', root, i, t, e, w / 1024);
    if w / 1024 == i {
      ZeroWord(w % 1024);
    } else if IsValid(d) {
      assert Ppn(d) in Tables(ram, root);
    }
  }

  /** Installing an empty second-level table changes no translation. */
  lemma AddTable(ram: Ram, ram': Ram, root: nat, i: nat, t: nat, e: nat)
    requires TreeOk(ram, root) && i < 1024 && !IsValid(Entry1(ram, root, i))
    requires t in ram && t !in Tables(ram, root) && TableAdded(ram, ram', root, i, t, e)
    ensures TreeOk(ram', root) && Tables(ram', root) == Tables(ram, root) + {t}
    ensures TableSet(ram', root) == TableSet(ram, root) + {i}
    ensures Flat(ram', root) == Flat(ram, root) && Entry1(ram', root, i) == e
  {
    AddedTree(ram, ram', root, i, t, e);
    AddedEntry(ram, ram', root, i, t, e, i);
    forall w | 0 <= w < VPNS
      ensures Leaf(ram', root, w) == Leaf(ram, root, w)
    {
      AddedLeaf(ram, ram', root, i, t, e, w);
    }
  }

  /** A zeroed page is an empty page table. */
  lemma EmptyTable(ram: Ram, root: nat)
    requires root in ram && ram[root] == ZERO_PAGE
    ensures TreeOk(ram, root) && Tables(ram, root) == {root} && Flat(ram, root) == map[] && TableSet(ram, root) == {}
  {
    forall i | 0 <= i < 1024
      ensures Entry1(ram, root, i) == 0
    {
      ZeroWord(i);
    }
    assert forall v :: 0 <= v < VPNS ==> Leaf(ram, root, v) == 0;
  }
}

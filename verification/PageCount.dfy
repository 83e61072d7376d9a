/** Counting pages: a space owns one page for its root, one for each second-level table and one for each
    user page, so conservation of pages is conservation of a number. */
module PageCount {
  import opened Layout
  import opened PageTable
  import opened Space
  import opened UserSpace

  ghost function TableSetTo(ram: Ram, root: nat, n: nat): set<nat>
    requires root in ram && n <= 1024
  {
    set i | 0 <= i < n && IsValid(Entry1(ram, root, i))
  }

  lemma OneMore(s: set<nat>, x: nat)
    requires x !in s
    ensures |s + {x}| == |s| + 1
  {
  }

  lemma OneLess(s: set<nat>, x: nat)
    requires x in s
    ensures |s - {x}| == |s| - 1
  {
  }

  lemma NextTableSet(ram: Ram, root: nat, i: nat)
    requires root in ram && i < 1024
    ensures i !in TableSetTo(ram, root, i)
    ensures TableSetTo(ram, root, i + 1) ==
            if IsValid(Entry1(ram, root, i)) then TableSetTo(ram, root, i) + {i} else TableSetTo(ram, root, i)
  {
  }

  lemma BothMore(a: set<nat>, b: set<nat>, a': set<nat>, b': set<nat>, x: nat, y: nat)
    requires |a| == |b| && x !in a && y !in b && a' == a + {x} && b' == b + {y}
    ensures |a'| == |b'|
  {
    OneMore(a, x);
    OneMore(b, y);
  }

  lemma {:induction false} SubTableCount(ram: Ram, root: nat, n: nat)
    requires TreeOk(ram, root) && n <= 1024
    ensures |SubTables(ram, root, n)| == |TableSetTo(ram, root, n)|
  {
    if n == 0 {
      assert SubTables(ram, root, 0) == {} && TableSetTo(ram, root, 0) == {};
    } else {
      var i := n - 1;
      var e := Entry1(ram, root, i);
      SubTableCount(ram, root, i);
      NextSubTable(ram, root, i);
      NextTableSet(ram, root, i);
      if IsValid(e) {
        BothMore(SubTables(ram, root, i), TableSetTo(ram, root, i), SubTables(ram, root, n), TableSetTo(ram, root, n),
                 Ppn(e), i);
      }
    }
  }

  /** One page for the root and one for each second-level table. */
  lemma TableCount(ram: Ram, root: nat)
    requires TreeOk(ram, root)
    ensures |Tables(ram, root)| == 1 + |TableSet(ram, root)|
  {
    AllTables(ram, root);
    SubTableCount(ram, root, 1024);
    assert TableSetTo(ram, root, 1024) == TableSet(ram, root);
  }

  ghost function PagesAt(flat: map<nat, nat>, s: set<nat>): set<nat> {
    set v | v in s && v in flat :: Ppn(flat[v])
  }

  ghost predicate OncePerPage(flat: map<nat, nat>, s: set<nat>) {
    && s <= flat.Keys
    && forall v, w :: v in s && w in s && Ppn(flat[v]) == Ppn(flat[w]) ==> v == w
  }

  lemma {:induction false} PagesAtCount(flat: map<nat, nat>, s: set<nat>)
    requires OncePerPage(flat, s)
    ensures |PagesAt(flat, s)| == |s|
    decreases |s|
  {
    if s == {} {
      assert PagesAt(flat, s) == {};
    } else {
      var v :| v in s;
      var rest := s - {v};
      PagesAtCount(flat, rest);
      assert PagesAt(flat, s) == PagesAt(flat, rest) + {Ppn(flat[v])};
    }
  }

  /** One page for each user page. */
  lemma OwnedCount(flat: map<nat, nat>, tables: set<nat>, free: set<nat>, first: nat, ram: Ram)
    requires FlatOk(flat, tables, free, first) && AllRam(ram) && RAM_FIRST <= first
    ensures |Owned(flat)| == |ViewOf(flat, ram)|
  {
    var s := ViewOf(flat, ram).Keys;
    ViewKeys(flat, tables, free, first, ram);
    assert forall v :: v in s <==> v in ViewOf(flat, ram);
    PagesAtCount(flat, s);
    assert Owned(flat) == PagesAt(flat, s);
  }

  lemma SpaceCount(ram: Ram, free: set<nat>, root: nat, first: nat)
    requires SpaceOk(ram, free, root, first) && AllRam(ram) && RAM_FIRST <= first
    ensures |SpacePages(ram, root)| == 1 + |TableSet(ram, root)| + |UserView(ram, root)|
    ensures SpacePages(ram, root) !! free
  {
    var flat, tables := Flat(ram, root), Tables(ram, root);
    OwnedNoTable(flat, tables, free, first);
    TableCount(ram, root);
    OwnedCount(flat, tables, free, first, ram);
    DisjointCount(tables, Owned(flat));
  }

  lemma DisjointCount(a: set<nat>, b: set<nat>)
    requires a !! b
    ensures |a + b| == |a| + |b|
  {
  }

  /** Free pages, tables and user pages add up to the same number before and after. */
  lemma KeptCount(ram: Ram, free: set<nat>, ram': Ram, free': set<nat>, root: nat, first: nat)
    requires SpaceOk(ram, free, root, first) && Kept(ram, free, ram', free', root, first)
    requires AllRam(ram) && AllRam(ram') && RAM_FIRST <= first
    ensures |free'| + |TableSet(ram', root)| + |UserView(ram', root)| ==
            |free| + |TableSet(ram, root)| + |UserView(ram, root)|
  {
    SpaceCount(ram, free, root, first);
    SpaceCount(ram', free', root, first);
    DisjointCount(free, SpacePages(ram, root));
    DisjointCount(free', SpacePages(ram', root));
  }
}

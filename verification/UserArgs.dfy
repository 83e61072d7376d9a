/** A user's argument list: a 0-terminated array of addresses of NUL-terminated strings, as exec(path, argv)
    takes it from the caller and as the new program finds it. */
module UserArgs {
  import opened Layout
  import opened UserSpace
  import opened UserCopy
  import opened Args
  import opened ArgStack

  /** The little-endian word at address a. */
  ghost function UserWord(view: View, a: nat): nat
    requires a < 0x1_0000_0000 && RangeAllows(view, a, 4, PTE_R)
  {
    var b0: int, b1: int, b2: int, b3: int :=
      ByteAt(view, Plus(a, 0)), ByteAt(view, Plus(a, 1)), ByteAt(view, Plus(a, 2)), ByteAt(view, Plus(a, 3));
    b0 + 0x100 * b1 + 0x1_0000 * b2 + 0x100_0000 * b3
  }

  /** The string at address a is s. */
  ghost predicate StringIs(view: View, a: nat, s: Bytes)
    requires a < 0x1_0000_0000
  {
    |s| < 0x1_0000_0000 && StringAt(view, a, |s|) && forall i :: 0 <= i < |s| ==> ByteAt(view, Plus(a, i)) == s[i]
  }

  /** Entry j of the array at `list` points to string s. */
  ghost predicate UserArg(view: View, list: nat, j: nat, s: Bytes)
    requires list < 0x1_0000_0000 && j <= MAXARG
  {
    var a := Plus(list, 4 * j);
    && RangeAllows(view, a, 4, PTE_R) && 0 < UserWord(view, a) < 0x1_0000_0000
    && StringIs(view, UserWord(view, a), s)
  }

  /** Entry n of the array is the closing 0. */
  ghost predicate UserEnd(view: View, list: nat, n: nat)
    requires list < 0x1_0000_0000 && n <= MAXARG
  {
    var a := Plus(list, 4 * n);
    RangeAllows(view, a, 4, PTE_R) && UserWord(view, a) == 0
  }

  /** The argument list at `list` (none if it is 0) is args. */
  ghost predicate UserArgv(view: View, list: nat, args: seq<Bytes>)
    requires list < 0x1_0000_0000
  {
    if list == 0 then args == []
    else
      && |args| <= MAXARG && (forall j :: 0 <= j < |args| ==> UserArg(view, list, j, args[j]))
      && UserEnd(view, list, |args|)
  }

  // ---------------------------------------------------------------- determinacy

  lemma SameString(view: View, a: nat, s: Bytes, t: Bytes)
    requires a < 0x1_0000_0000 && StringIs(view, a, s) && StringIs(view, a, t)
    ensures s == t
  {
    assert |s| == |t|;
  }

  /** A view has one argument list at an address. */
  lemma SameArgv(view: View, list: nat, args: seq<Bytes>, cand: seq<Bytes>)
    requires list < 0x1_0000_0000 && UserArgv(view, list, args) && UserArgv(view, list, cand)
    ensures args == cand
  {
    if list != 0 {
      var n := if |args| < |cand| then |args| else |cand|;
      EndsAtZero(view, list, args, n);
      EndsAtZero(view, list, cand, n);
      forall j | 0 <= j < |args|
        ensures args[j] == cand[j]
      {
        assert UserArg(view, list, j, args[j]) && UserArg(view, list, j, cand[j]);
        SameString(view, UserWord(view, Plus(list, 4 * j)), args[j], cand[j]);
      }
    }
  }

  /** The list ends at its first 0. */
  lemma EndsAtZero(view: View, list: nat, args: seq<Bytes>, j: nat)
    requires 0 < list < 0x1_0000_0000 && UserArgv(view, list, args) && j <= |args|
    ensures RangeAllows(view, Plus(list, 4 * j), 4, PTE_R)
    ensures UserWord(view, Plus(list, 4 * j)) == 0 <==> j == |args|
  {
    if j < |args| {
      assert UserArg(view, list, j, args[j]);
    }
  }

  // ---------------------------------------------------------------- what the new program finds

  lemma StackByte(view: View, off: nat, i: nat)
    requires STACK_VPN in view && HasBit(view[STACK_VPN].flags, PTE_R) && off + i < 4096
    ensures STACK_BASE + off < 0x1_0000_0000
    ensures Allows(view, Plus(STACK_BASE + off, i), PTE_R)
    ensures ByteAt(view, Plus(STACK_BASE + off, i)) == StackPage(view)[off + i]
  {
    StackAddress(off + i);
  }

  lemma StackWord(view: View, k: nat, a: nat)
    requires STACK_VPN in view && HasBit(view[STACK_VPN].flags, PTE_R) && k < 1024 && a == STACK_BASE + 4 * k
    ensures a < 0x1_0000_0000 && RangeAllows(view, a, 4, PTE_R) && UserWord(view, a) == Word(StackPage(view), k)
  {
    var off := 4 * k;
    forall i | 0 <= i < 4
      ensures Allows(view, Plus(a, i), PTE_R)
    {
      StackByte(view, off, i);
    }
    StackByte(view, off, 0);
    StackByte(view, off, 1);
    StackByte(view, off, 2);
    StackByte(view, off, 3);
  }

  lemma StackString(view: View, off: nat, a: nat, s: Bytes)
    requires STACK_VPN in view && HasBit(view[STACK_VPN].flags, PTE_R) && StringOn(StackPage(view), off, s)
    requires a == STACK_BASE + off
    requires forall i :: 0 <= i < |s| ==> s[i] != 0
    ensures a < 0x1_0000_0000 && StringIs(view, a, s)
  {
    var p := StackPage(view);
    forall i | 0 <= i <= |s|
      ensures Allows(view, Plus(a, i), PTE_R) && ByteAt(view, Plus(a, i)) == if i < |s| then s[i] else 0
    {
      StackByte(view, off, i);
      assert p[off..off + |s| + 1][i] == (s + [0])[i];
    }
  }

  lemma StackArg(view: View, o: nat, offs: seq<int>, args: seq<Bytes>, sp: nat, j: nat)
    requires STACK_VPN in view && HasBit(view[STACK_VPN].flags, PTE_R)
    requires ArgvOn(StackPage(view), o, STACK_BASE, offs, args)
    requires sp == STACK_BASE + 4 * o && sp < 0x1_0000_0000 && j < |args| <= MAXARG && NoNul(args[j])
    ensures UserArg(view, sp, j, args[j])
  {
    var a, k := Plus(sp, 4 * j), o + j;
    assert StringOn(StackPage(view), offs[j], args[j]);
    assert a == STACK_BASE + 4 * k;
    StackWord(view, k, a);
    StackString(view, offs[j], STACK_BASE + offs[j], args[j]);
  }

  /** The argument area on the new stack reads as the argument list it was made from. */
  lemma ArgvVisible(view: View, o: nat, offs: seq<int>, args: seq<Bytes>, sp: nat)
    requires STACK_VPN in view && HasBit(view[STACK_VPN].flags, PTE_R)
    requires ArgvOn(StackPage(view), o, STACK_BASE, offs, args)
    requires sp == STACK_BASE + 4 * o && |args| <= MAXARG && forall j :: 0 <= j < |args| ==> NoNul(args[j])
    ensures sp < 0x1_0000_0000 && sp % 16 == 0 && UserArgv(view, sp, args)
  {
    forall j | 0 <= j < |args|
      ensures UserArg(view, sp, j, args[j])
    {
      StackArg(view, o, offs, args, sp, j);
    }
    StackEnd(view, o, |args|, sp);
  }

  lemma StackEnd(view: View, o: nat, n: nat, sp: nat)
    requires STACK_VPN in view && HasBit(view[STACK_VPN].flags, PTE_R) && n <= MAXARG && 4 * o + 4 * (n + 1) <= 4096
    requires sp == STACK_BASE + 4 * o && sp < 0x1_0000_0000 && Word(StackPage(view), o + n) == 0
    ensures UserEnd(view, sp, n)
  {
    var a, k := Plus(sp, 4 * n), o + n;
    assert a == STACK_BASE + 4 * k;
    StackWord(view, k, a);
  }
}

/** The argument area kexec (kernel/exec.c) lays out on the new stack page, from the top down. */
module Args {
  import opened Layout
  import opened Memory

  const MAXARG: nat := 16

  type Bytes = seq<Byte>

  // ---------------------------------------------------------------- strings packed in a kernel page

  ghost predicate NoNul(s: Bytes) {
    forall i :: 0 <= i < |s| ==> s[i] != 0
  }

  /** The C string at index `at` of a buffer. */
  function CString(buf: Bytes, at: nat): Bytes
    decreases |buf| - at
  {
    if at >= |buf| || buf[at] == 0 then [] else [buf[at]] + CString(buf, at + 1)
  }

  lemma {:induction false} CStringIs(buf: Bytes, at: nat, s: Bytes)
    requires at + |s| < |buf| && buf[at..at + |s|] == s && buf[at + |s|] == 0 && NoNul(s)
    ensures CString(buf, at) == s
    decreases |s|
  {
    if s != [] {
      assert s[0] == buf[at..at + |s|][0];
      assert buf[at + 1..at + 1 + |s[1..]|] == s[1..];
      CStringIs(buf, at + 1, s[1..]);
    }
  }

  /** String s lies at index `at` with its NUL, all below `used`. */
  ghost predicate Holds(buf: Bytes, at: nat, s: Bytes, used: nat) {
    at + |s| < used <= |buf| && buf[at..at + |s|] == s && buf[at + |s|] == 0 && NoNul(s)
  }

  /** The strings lie in the buffer, below `used`. */
  ghost predicate Packed(buf: Bytes, starts: seq<nat>, args: seq<Bytes>, used: nat) {
    |starts| == |args| && forall j :: 0 <= j < |args| ==> Holds(buf, starts[j], args[j], used)
  }

  /** strlen and the bytes copied with the NUL. */
  lemma HeldString(buf: Bytes, at: nat, s: Bytes, used: nat, n: nat)
    requires Holds(buf, at, s, used) && n == |CString(buf, at)| + 1
    ensures CString(buf, at) == s && n == |s| + 1 && at + n <= |buf| && buf[at..at + n] == s + [0]
  {
    CStringIs(buf, at, s);
    assert buf[at..at + n] == buf[at..at + |s|] + [buf[at + |s|]];
  }

  // ---------------------------------------------------------------- the layout of the stack page

  /** Where a push of n bytes at offset off ends: 16-byte aligned; negative if it does not fit. */
  function Push(off: int, n: nat): (r: int)
    ensures r % 16 == 0 && r <= off - n < r + 16
  {
    (off - n) / 16 * 16
  }

  /** The offset in the stack page after the strings were pushed in order. */
  function OffsetAfter(argv: seq<Bytes>): int {
    if argv == [] then 4096 else Push(OffsetAfter(argv[..|argv| - 1]), |argv[|argv| - 1]| + 1)
  }

  /** The offset after the first k strings. */
  function OffsetAt(argv: seq<Bytes>, k: nat): int
    requires k <= |argv|
  {
    OffsetAfter(argv[..k])
  }

  /** The argument lists kexec accepts: at most MAXARG strings which, with the array of their addresses,
      fit in the stack page. */
  predicate Fits(argv: seq<Bytes>) {
    |argv| <= MAXARG && Push(OffsetAfter(argv), 4 * (|argv| + 1)) >= 0
  }

  lemma {:induction false} OffsetShrinks(argv: seq<Bytes>, k: nat)
    requires k <= |argv|
    ensures OffsetAfter(argv) <= OffsetAfter(argv[..k])
    decreases |argv|
  {
    if k == |argv| {
      assert argv[..k] == argv;
    } else {
      var rest := argv[..|argv| - 1];
      OffsetShrinks(rest, k);
      assert rest[..k] == argv[..k];
    }
  }

  /** A string with its NUL at offset off of a page. */
  ghost predicate StringOn(p: Page, off: int, s: Bytes) {
    && 0 <= off && off + |s| + 1 <= 4096 && off % 16 == 0
    && p[off..off + |s| + 1] == s + [0]
  }

  /** The strings lie on the page, each at its offset, none below low. */
  ghost predicate StringsOn(p: Page, offs: seq<int>, argv: seq<Bytes>, low: int) {
    && |offs| == |argv|
    && forall j :: 0 <= j < |argv| ==> offs[j] >= low && StringOn(p, offs[j], argv[j])
  }

  lemma BlitBelow(p: Page, low: nat, off: nat, bytes: Bytes, a: nat, n: nat)
    requires off + |bytes| <= low <= a && a + n <= 4096
    ensures Blit(p, off, bytes)[a..a + n] == p[a..a + n]
  {
    var q := Blit(p, off, bytes);
    assert forall i :: a <= i < a + n ==> q[i] == p[i];
  }

  /** A write below low overwrites no string. */
  lemma StringsKept(p: Page, offs: seq<int>, argv: seq<Bytes>, low: nat, off: nat, bytes: Bytes)
    requires StringsOn(p, offs, argv, low) && off + |bytes| <= low <= 4096
    ensures StringsOn(Blit(p, off, bytes), offs, argv, low)
  {
    forall j | 0 <= j < |argv|
      ensures StringOn(Blit(p, off, bytes), offs[j], argv[j])
    {
      BlitBelow(p, low, off, bytes, offs[j], |argv[j]| + 1);
    }
  }

  lemma BlitHere(p: Page, off: nat, bytes: Bytes)
    requires off + |bytes| <= 4096
    ensures Blit(p, off, bytes)[off..off + |bytes|] == bytes
  {
  }

  /** Pushing one more string. */
  lemma StringPushed(p: Page, offs: seq<int>, argv: seq<Bytes>, low: nat, s: Bytes, off: nat)
    requires StringsOn(p, offs, argv, low) && low <= 4096 && off == Push(low, |s| + 1)
    ensures off + |s + [0]| <= 4096 && StringsOn(Blit(p, off, s + [0]), offs + [off], argv + [s], off)
  {
    var q := Blit(p, off, s + [0]);
    StringsKept(p, offs, argv, low, off, s + [0]);
    BlitHere(p, off, s + [0]);
    assert |s + [0]| == |s| + 1;
    assert StringOn(q, off, s);
  }

  // ---------------------------------------------------------------- the array of addresses

  /** The little-endian bytes of a word. */
  function WordBytes(w: nat): (b: Bytes)
    requires w < 0x1_0000_0000
    ensures |b| == 4
  {
    [w % 0x100, w / 0x100 % 0x100, w / 0x1_0000 % 0x100, w / 0x100_0000]
  }

  function ArrayBytes(ws: seq<nat>): (b: Bytes)
    requires forall i :: 0 <= i < |ws| ==> ws[i] < 0x1_0000_0000
    ensures |b| == 4 * |ws|
  {
    if ws == [] then [] else ArrayBytes(ws[..|ws| - 1]) + WordBytes(ws[|ws| - 1])
  }

  /** Word w in little-endian order from index k on. */
  predicate WordIn(b: Bytes, k: nat, w: nat)
    requires k + 4 <= |b|
  {
    b[k] == w % 0x100 && b[k + 1] == w / 0x100 % 0x100 && b[k + 2] == w / 0x1_0000 % 0x100 && b[k + 3] == w / 0x100_0000
  }

  lemma {:induction false} ArrayBytesAt(ws: seq<nat>, j: nat)
    requires j < |ws| && forall i :: 0 <= i < |ws| ==> ws[i] < 0x1_0000_0000
    ensures WordIn(ArrayBytes(ws), 4 * j, ws[j])
    decreases |ws|
  {
    if j < |ws| - 1 {
      ArrayBytesAt(ws[..|ws| - 1], j);
    }
  }

  /** A word written as bytes reads back. */
  lemma WordOfBytes(p: Page, a: nat, k: nat, w: nat)
    requires k < 1024 && a == 4 * k && w < 0x1_0000_0000 && WordIn(p, a, w)
    ensures Word(p, k) == w
  {
    SplitWord(w);
  }

  lemma WordBlit(p: Page, off: nat, bytes: Bytes, k: nat, w: nat)
    requires off + |bytes| <= 4096 && k + 4 <= |bytes| && WordIn(bytes, k, w)
    ensures WordIn(Blit(p, off, bytes), off + k, w)
  {
  }

  /** Storing the array at word o of a page makes its words readable in place. */
  lemma ArrayStored(p: Page, o: nat, ws: seq<nat>, j: nat)
    requires 4 * o + 4 * |ws| <= 4096 && j < |ws| && forall i :: 0 <= i < |ws| ==> ws[i] < 0x1_0000_0000
    ensures Word(Blit(p, 4 * o, ArrayBytes(ws)), o + j) == ws[j]
  {
    var b, w, a, k := ArrayBytes(ws), ws[j], 4 * o, 4 * j;
    ArrayBytesAt(ws, j);
    WordBlit(p, a, b, k, w);
    WordOfBytes(Blit(p, a, b), a + k, o + j, w);
  }

  /** The finished argument area: at word o (16-byte aligned) an array of the strings' addresses and a
      closing 0, and above it, untouched, the strings. */
  ghost predicate ArgvOn(p: Page, o: nat, base: nat, offs: seq<int>, argv: seq<Bytes>) {
    && o % 4 == 0 && 4 * o + 4 * (|argv| + 1) <= 4096
    && StringsOn(p, offs, argv, 4 * o + 4 * (|argv| + 1))
    && (forall j :: 0 <= j < |argv| ==> Word(p, o + j) == base + offs[j])
    && Word(p, o + |argv|) == 0
  }

  lemma StringsLower(p: Page, offs: seq<int>, argv: seq<Bytes>, low: int, low': int)
    requires StringsOn(p, offs, argv, low) && low' <= low
    ensures StringsOn(p, offs, argv, low')
  {
  }

  lemma ArrayPushed(p: Page, o: nat, base: nat, offs: seq<int>, argv: seq<Bytes>, low: nat, ws: seq<nat>)
    requires StringsOn(p, offs, argv, low) && low <= 4096 && o % 4 == 0 && 4 * o + 4 * (|argv| + 1) <= low
    requires |ws| == |argv| + 1 && ws[|argv|] == 0 && forall j :: 0 <= j < |argv| ==> ws[j] == base + offs[j]
    requires forall i :: 0 <= i < |ws| ==> ws[i] < 0x1_0000_0000
    ensures ArgvOn(Blit(p, 4 * o, ArrayBytes(ws)), o, base, offs, argv)
  {
    var q := Blit(p, 4 * o, ArrayBytes(ws));
    StringsKept(p, offs, argv, low, 4 * o, ArrayBytes(ws));
    StringsLower(q, offs, argv, low, 4 * o + 4 * (|argv| + 1));
    forall j | 0 <= j < |ws|
      ensures Word(q, o + j) == ws[j]
    {
      ArrayStored(p, o, ws, j);
    }
    assert Word(q, o + |argv|) == ws[|argv|];
  }

  lemma OnePushMore(argv: seq<Bytes>, k: nat)
    requires k < |argv|
    ensures OffsetAt(argv, k + 1) == Push(OffsetAt(argv, k), |argv[k]| + 1)
    ensures argv[..k] + [argv[k]] == argv[..k + 1]
  {
    assert argv[..k + 1][..k] == argv[..k];
  }

  lemma OffsetEnds(argv: seq<Bytes>)
    ensures OffsetAt(argv, 0) == 4096 && OffsetAt(argv, |argv|) == OffsetAfter(argv) && argv[..0] == []
    ensures argv[..|argv|] == argv
  {
    assert argv[..|argv|] == argv;
  }

  /** An argument that does not fit stops the whole list from fitting. */
  lemma NoFit(argv: seq<Bytes>, k: nat)
    requires k <= |argv| && OffsetAt(argv, k) < 0
    ensures !Fits(argv)
  {
    OffsetShrinks(argv, k);
  }
}

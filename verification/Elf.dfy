/** The part of the ELF format that kernel/exec.c reads: the file header and the program headers of a
    32-bit executable (System V gABI, chapters 4 and 5). */
module Elf {
  import opened Layout

  const MAGIC: nat := 0x464C_457F
  const EHDR_SIZE: nat := 52
  const PHDR_SIZE: nat := 32

  /** An image in memory: its len bytes, and whatever lies around it for reads that go astray. */
  datatype Image = Image(bytes: seq<Byte>, around: nat -> Byte)

  /** The byte at offset k from the start of an image. */
  function ImageByte(img: Image, k: nat): Byte {
    if k < |img.bytes| then img.bytes[k] else img.around(k)
  }

  function U16(img: Image, k: nat): nat {
    var b0: int, b1: int := ImageByte(img, k), ImageByte(img, k + 1);
    b0 + 0x100 * b1
  }

  function U32(img: Image, k: nat): (w: nat)
    ensures w < 0x1_0000_0000
  {
    var b0: int, b1: int, b2: int, b3: int :=
      ImageByte(img, k), ImageByte(img, k + 1), ImageByte(img, k + 2), ImageByte(img, k + 3);
    b0 + 0x100 * b1 + 0x1_0000 * b2 + 0x100_0000 * b3
  }

  function Entry(img: Image): nat {
    U32(img, 24)
  }

  function Phoff(img: Image): (w: nat)
    ensures w < 0x1_0000_0000
  {
    U32(img, 28)
  }

  function Phnum(img: Image): (n: nat)
    ensures n < 0x1_0000
  {
    U16(img, 44)
  }

  /** The file header of a 32-bit RISC-V executable. */
  predicate HeaderOk(img: Image) {
    && |img.bytes| >= EHDR_SIZE
    && U32(img, 0) == MAGIC && ImageByte(img, 4) == 1
    && U16(img, 16) == 2 && U16(img, 18) == 243 && U16(img, 42) == PHDR_SIZE
  }

  datatype Segment = Segment(kind: nat, offset: nat, va: nat, filesz: nat, memsz: nat, flags: nat)

  /** The program header at offset off. */
  function SegmentAt(img: Image, off: nat): (h: Segment)
    ensures h.offset < 0x1_0000_0000 && h.va < 0x1_0000_0000 && h.filesz < 0x1_0000_0000 && h.memsz < 0x1_0000_0000
  {
    Segment(U32(img, off), U32(img, off + 4), U32(img, off + 8), U32(img, off + 16), U32(img, off + 20),
            U32(img, off + 24))
  }

  /** The offset of program header i, in 32-bit arithmetic. */
  function HeaderOffset(img: Image, i: nat): nat {
    (Phoff(img) + i * 32) % 0x1_0000_0000
  }

  function SegmentOf(img: Image, i: nat): Segment {
    SegmentAt(img, HeaderOffset(img, i))
  }

  /** The bounds test on program header i, with its 32-bit sums. */
  predicate HeaderInFile(img: Image, i: nat) {
    var off := HeaderOffset(img, i);
    off >= Phoff(img) && (off + 32) % 0x1_0000_0000 <= |img.bytes|
  }

  /** Program header i lies in the image. */
  predicate HeaderInside(img: Image, i: nat) {
    HeaderOffset(img, i) + 32 <= |img.bytes|
  }

  predicate Loads(h: Segment) {
    h.kind == 1 && h.memsz != 0
  }

  /** A segment the loader accepts when the image so far ends at size. */
  predicate SegmentFits(h: Segment, size: nat, len: nat) {
    && h.filesz <= h.memsz && h.offset + h.filesz <= len
    && h.va % 4096 == 0 && size <= h.va && h.va + h.memsz <= UART_0
  }

  /** The same test as the loader computes it, in 32 bits. */
  predicate SegmentFits32(h: Segment, size: nat, len: nat) {
    && !(h.memsz < h.filesz)
    && !((h.offset + h.filesz) % 0x1_0000_0000 < h.offset || (h.offset + h.filesz) % 0x1_0000_0000 > len)
    && !(h.va % 4096 != 0) && !(h.va < size)
    && !((h.va + h.memsz) % 0x1_0000_0000 < h.va || (h.va + h.memsz) % 0x1_0000_0000 > UART_0)
  }

  /** The overflow tests are right: the 32-bit form accepts exactly the segments that fit. */
  lemma FitsIn32Bits(h: Segment, size: nat, len: nat)
    requires h.offset < 0x1_0000_0000 && h.va < 0x1_0000_0000 && h.filesz < 0x1_0000_0000 && h.memsz < 0x1_0000_0000
    requires len < 0x1_0000_0000
    ensures SegmentFits32(h, size, len) <==> SegmentFits(h, size, len)
  {
    WrapLess(h.offset, h.filesz);
    WrapLess(h.va, h.memsz);
  }

  lemma WrapLess(a: nat, b: nat)
    requires a < 0x1_0000_0000 && b < 0x1_0000_0000
    ensures (a + b) % 0x1_0000_0000 == if a + b >= 0x1_0000_0000 then a + b - 0x1_0000_0000 else a + b
  {
  }

  /** Where the image ends after the program headers from i to n; -1 if the loader rejects one of them. */
  function EndAfter(img: Image, i: nat, n: nat, size: nat): int
    decreases n - i
  {
    if i >= n then size
    else if !HeaderInFile(img, i) then -1
    else
      var h := SegmentOf(img, i);
      if !Loads(h) then EndAfter(img, i + 1, n, size)
      else if !SegmentFits(h, size, |img.bytes|) then -1
      else EndAfter(img, i + 1, n, h.va + h.memsz)
  }

  /** The image only grows. */
  lemma {:induction false} EndGrows(img: Image, i: nat, n: nat, size: nat)
    ensures EndAfter(img, i, n, size) == -1 || EndAfter(img, i, n, size) >= size
    ensures size <= UART_0 ==> EndAfter(img, i, n, size) <= UART_0
    decreases n - i
  {
    if i < n && HeaderInFile(img, i) {
      var h := SegmentOf(img, i);
      if !Loads(h) {
        EndGrows(img, i + 1, n, size);
      } else if SegmentFits(h, size, |img.bytes|) {
        EndGrows(img, i + 1, n, h.va + h.memsz);
      }
    }
  }

  function EndFrom(img: Image, i: nat, size: nat): int {
    EndAfter(img, i, Phnum(img), size)
  }

  /** The images load_elf accepts. */
  predicate Accepted(img: Image) {
    HeaderOk(img) && EndFrom(img, 0, USER_BASE) >= 0
  }

  // ---------------------------------------------------------------- bounds of the program headers

  /** The first program header starts in the last 32 bytes of the address space: its bounds test wraps. */
  predicate Astray(img: Image) {
    Phnum(img) > 0 && Phoff(img) >= 0xFFFF_FFE0
  }

  /** For images that fit in RAM, a program header that passes the bounds test lies in the image
      unless the first header is astray. */
  lemma HeaderBounds(img: Image, i: nat)
    requires |img.bytes| <= 0x800_0000 && i < Phnum(img) && HeaderInFile(img, i)
    requires Phoff(img) <= 0x800_0000
    ensures HeaderInside(img, i)
  {
    var off := HeaderOffset(img, i);
    WrapLess(Phoff(img), i * 32);
    WrapLess(off, 32);
  }

  /** The first header tells: its bounds test fails for every other offset beyond the image. */
  lemma FirstHeader(img: Image)
    requires EHDR_SIZE <= |img.bytes| <= 0x800_0000 && Phnum(img) > 0
    ensures HeaderInFile(img, 0) <==> Phoff(img) + 32 <= |img.bytes| || Phoff(img) >= 0xFFFF_FFE0
  {
    assert HeaderOffset(img, 0) == Phoff(img);
    WrapLess(Phoff(img), 32);
  }

  /** load_elf can get to reading program header i: its own bounds test and all earlier ones pass. */
  ghost predicate Reached(img: Image, i: nat) {
    i < Phnum(img) && Passed(img, i + 1)
  }

  /** The bounds tests of the first n program headers pass. */
  ghost predicate Passed(img: Image, n: nat) {
    forall j: nat :: j < n ==> HeaderInFile(img, j)
  }

  /** Once the first header passes its test, one header tells for all. */
  lemma InsideIff(img: Image, i: nat)
    requires EHDR_SIZE <= |img.bytes| <= 0x800_0000 && i < Phnum(img) && HeaderInFile(img, 0) && HeaderInFile(img, i)
    ensures !Astray(img) ==> HeaderInside(img, i)
    ensures Astray(img) ==> !HeaderInside(img, 0)
  {
    FirstHeader(img);
    if Astray(img) {
      assert HeaderOffset(img, 0) == Phoff(img);
    } else {
      HeaderBounds(img, i);
    }
  }

  /** When the reads are in bounds: the first n headers, as far as the tests let the loader come, all lie in
      the image exactly if the table is not astray. */
  lemma ReadsInside(img: Image, n: nat)
    requires EHDR_SIZE <= |img.bytes| <= 0x800_0000 && n <= Phnum(img) && Passed(img, n)
    requires n == 0 ==> Phnum(img) == 0 || !HeaderInFile(img, 0)
    ensures (forall i: nat :: i < n ==> HeaderInside(img, i)) <==> !Astray(img)
  {
    if n == 0 {
      if Phnum(img) > 0 {
        FirstHeader(img);
      }
    } else {
      forall i: nat | i < n
        ensures !Astray(img) ==> HeaderInside(img, i)
        ensures Astray(img) ==> !HeaderInside(img, 0)
      {
        InsideIff(img, i);
      }
      assert Astray(img) ==> !HeaderInside(img, 0) by {
        InsideIff(img, 0);
      }
    }
  }

  /** Every header the loader can get to lies in the image exactly if the table is not astray. */
  lemma ReachedInside(img: Image)
    requires EHDR_SIZE <= |img.bytes| <= 0x800_0000
    ensures (forall i: nat :: Reached(img, i) ==> HeaderInside(img, i)) <==> !Astray(img)
  {
    forall i: nat | Reached(img, i)
      ensures !Astray(img) ==> HeaderInside(img, i)
    {
      assert HeaderInFile(img, 0) && HeaderInFile(img, i);
      InsideIff(img, i);
    }
    if Astray(img) {
      FirstHeader(img);
      assert Reached(img, 0);
      InsideIff(img, 0);
    }
  }

  // ---------------------------------------------------------------- what lies around the image

  lemma SameHeader(img: Image, other: Image)
    requires img.bytes == other.bytes && |img.bytes| >= EHDR_SIZE
    ensures Phoff(other) == Phoff(img) && Phnum(other) == Phnum(img) && Entry(other) == Entry(img)
    ensures HeaderOk(other) == HeaderOk(img)
  {
  }

  lemma SameSegment(img: Image, other: Image, i: nat)
    requires img.bytes == other.bytes && |img.bytes| >= EHDR_SIZE
    ensures HeaderInFile(other, i) == HeaderInFile(img, i)
    ensures HeaderInside(img, i) ==> SegmentOf(other, i) == SegmentOf(img, i)
  {
    SameHeader(img, other);
  }

  lemma {:induction false} SameEnd(img: Image, other: Image, i: nat, n: nat, size: nat)
    requires img.bytes == other.bytes && EHDR_SIZE <= |img.bytes| <= 0x800_0000 && n == Phnum(img) && !Astray(img)
    requires i > 0 ==> HeaderInFile(img, 0)
    ensures EndAfter(other, i, n, size) == EndAfter(img, i, n, size)
    decreases n - i
  {
    if i < n {
      SameSegment(img, other, i);
      if HeaderInFile(img, i) {
        InsideIff(img, i);
        var h := SegmentOf(img, i);
        SameEnd(img, other, i + 1, n, if Loads(h) then h.va + h.memsz else size);
      }
    }
  }

  /** Unless the table is astray, what lies around the image has no influence on what load_elf does with it. */
  lemma AroundIrrelevant(img: Image, other: Image)
    requires img.bytes == other.bytes && |img.bytes| <= 0x800_0000 && !(HeaderOk(img) && Astray(img))
    ensures Accepted(other) == Accepted(img)
    ensures Accepted(img) ==> EndFrom(other, 0, USER_BASE) == EndFrom(img, 0, USER_BASE) && Entry(other) == Entry(img)
  {
    if |img.bytes| >= EHDR_SIZE {
      SameHeader(img, other);
      if HeaderOk(img) {
        SameEnd(img, other, 0, Phnum(img), USER_BASE);
      }
    }
  }

  // ---------------------------------------------------------------- the counterexample

  /** An executable whose one program header is said to start at 0xFFFFFFF0. */
  function AstrayByte(k: int): Byte {
    match k
    case 0 => 0x7F
    case 1 => 0x45
    case 2 => 0x4C
    case 3 => 0x46
    case 4 => 1
    case 16 => 2
    case 18 => 243
    case 28 => 0xF0
    case 29 => 0xFF
    case 30 => 0xFF
    case 31 => 0xFF
    case 42 => 32
    case 44 => 1
    case _ => 0
  }

  /** The bounds test can be passed by a header outside the image: phoff = 0xFFFFFFF0. */
  lemma AstrayExists(around: nat -> Byte)
    ensures exists img: Image :: img.around == around && HeaderOk(img) && Phnum(img) == 1
                                 && HeaderInFile(img, 0) && !HeaderInside(img, 0)
  {
    var b: seq<Byte> := seq(52, i => AstrayByte(i));
    var img := Image(b, around);
    assert b[0] == 0x7F && b[1] == 0x45 && b[2] == 0x4C && b[3] == 0x46 && b[4] == 1;
    assert b[16] == 2 && b[17] == 0 && b[18] == 243 && b[19] == 0 && b[42] == 32 && b[43] == 0;
    assert b[28] == 0xF0 && b[29] == 0xFF && b[30] == 0xFF && b[31] == 0xFF && b[44] == 1 && b[45] == 0;
    assert HeaderOk(img) && Phoff(img) == 0xFFFF_FFF0 && Phnum(img) == 1;
    FirstHeader(img);
    assert HeaderOffset(img, 0) == 0xFFFF_FFF0;
  }
}

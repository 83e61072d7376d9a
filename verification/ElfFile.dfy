/** ELF files as they are written, field by field and byte by byte (System V gABI, chapters 4 and 5, ELFCLASS32 in
    little-endian order): what kernel/exec.c reads from one is what was written, and it accepts exactly the
    well laid out ones. */
module ElfFile {
  import opened Layout
  import opened Elf
  import opened Args

  /** Elf32_Ehdr; ident is e_ident after the magic number. */
  datatype Header = Header(magic: nat, ident: Bytes, kind: nat, machine: nat, version: nat, entry: nat, phoff: nat,
                           shoff: nat, flags: nat, ehsize: nat, phentsize: nat, phnum: nat,
                           shentsize: nat, shnum: nat, shstrndx: nat)

  predicate HeaderFits(x: Header) {
    && |x.ident| == 12 && x.magic < 0x1_0000_0000 && x.version < 0x1_0000_0000 && x.entry < 0x1_0000_0000
    && x.phoff < 0x1_0000_0000 && x.shoff < 0x1_0000_0000 && x.flags < 0x1_0000_0000
    && x.kind < 0x1_0000 && x.machine < 0x1_0000 && x.ehsize < 0x1_0000 && x.phentsize < 0x1_0000
    && x.phnum < 0x1_0000 && x.shentsize < 0x1_0000 && x.shnum < 0x1_0000 && x.shstrndx < 0x1_0000
  }

  function HalfBytes(n: nat): (b: Bytes)
    requires n < 0x1_0000
    ensures |b| == 2
  {
    [n % 0x100, n / 0x100]
  }

  /** The 52 bytes of a file header: identification, words, half-words. */
  function HeaderBytes(x: Header): (b: Bytes)
    requires HeaderFits(x)
    ensures |b| == 52
  {
    IdentBytes(x) + MiddleBytes(x) + TailBytes(x)
  }

  function IdentBytes(x: Header): (b: Bytes)
    requires HeaderFits(x)
    ensures |b| == 16
  {
    WordBytes(x.magic) + x.ident
  }

  function MiddleBytes(x: Header): (b: Bytes)
    requires HeaderFits(x)
    ensures |b| == 24
  {
    HalfBytes(x.kind) + HalfBytes(x.machine) + WordBytes(x.version) + WordBytes(x.entry) + WordBytes(x.phoff)
    + WordBytes(x.shoff) + WordBytes(x.flags)
  }

  function TailBytes(x: Header): (b: Bytes)
    requires HeaderFits(x)
    ensures |b| == 12
  {
    HalfBytes(x.ehsize) + HalfBytes(x.phentsize) + HalfBytes(x.phnum)
    + HalfBytes(x.shentsize) + HalfBytes(x.shnum) + HalfBytes(x.shstrndx)
  }

  predicate SegmentFits32Bits(h: Segment) {
    && h.kind < 0x1_0000_0000 && h.offset < 0x1_0000_0000 && h.va < 0x1_0000_0000
    && h.filesz < 0x1_0000_0000 && h.memsz < 0x1_0000_0000 && h.flags < 0x1_0000_0000
  }

  /** The 32 bytes of an Elf32_Phdr; the loader ignores the physical address and the alignment. */
  function PhdrBytes(h: Segment, pa: nat, align: nat): (b: Bytes)
    requires SegmentFits32Bits(h) && pa < 0x1_0000_0000 && align < 0x1_0000_0000
    ensures |b| == 32
  {
    WordBytes(h.kind) + WordBytes(h.offset) + WordBytes(h.va) + WordBytes(pa)
    + WordBytes(h.filesz) + WordBytes(h.memsz) + WordBytes(h.flags) + WordBytes(align)
  }

  // ---------------------------------------------------------------- reading back

  lemma WordRead(img: Image, k: nat, w: nat)
    requires w < 0x1_0000_0000 && k + 4 <= |img.bytes| && img.bytes[k..k + 4] == WordBytes(w)
    ensures U32(img, k) == w
  {
    var b := img.bytes[k..k + 4];
    assert b[0] == img.bytes[k] && b[1] == img.bytes[k + 1] && b[2] == img.bytes[k + 2] && b[3] == img.bytes[k + 3];
    SplitWord(w);
  }

  lemma HalfRead(img: Image, k: nat, n: nat)
    requires n < 0x1_0000 && k + 2 <= |img.bytes| && img.bytes[k..k + 2] == HalfBytes(n)
    ensures U16(img, k) == n
  {
    var b := img.bytes[k..k + 2];
    assert b[0] == img.bytes[k] && b[1] == img.bytes[k + 1];
  }

  lemma Part(b: Bytes, at: nat, whole: Bytes, k: nat, n: nat)
    requires at + |whole| <= |b| && b[at..at + |whole|] == whole && k + n <= |whole|
    ensures b[at + k..at + k + n] == whole[k..k + n]
  {
    var here, there := b[at + k..at + k + n], whole[k..k + n];
    forall i | 0 <= i < n
      ensures here[i] == there[i]
    {
      assert b[at..at + |whole|][k + i] == whole[k + i];
    }
  }

  /** The fields of a file header, where the format puts them. */
  lemma HeaderParts(x: Header, b: Bytes)
    requires HeaderFits(x) && b == HeaderBytes(x)
    ensures b[0..4] == WordBytes(x.magic) && b[4] == x.ident[0]
    ensures b[16..18] == HalfBytes(x.kind) && b[18..20] == HalfBytes(x.machine)
    ensures b[24..28] == WordBytes(x.entry) && b[28..32] == WordBytes(x.phoff)
    ensures b[42..44] == HalfBytes(x.phentsize) && b[44..46] == HalfBytes(x.phnum)
  {
    var ident, middle, tail := IdentBytes(x), MiddleBytes(x), TailBytes(x);
    assert b[0..16] == ident && b[16..40] == middle && b[40..52] == tail;
    MiddleParts(x, middle);
    TailParts(x, tail);
    assert ident[0..4] == WordBytes(x.magic) && ident[4] == x.ident[0];
    Part(b, 0, ident, 0, 4);
    Part(b, 16, middle, 0, 2);
    Part(b, 16, middle, 2, 2);
    Part(b, 16, middle, 8, 4);
    Part(b, 16, middle, 12, 4);
    Part(b, 40, tail, 2, 2);
    Part(b, 40, tail, 4, 2);
  }

  lemma MiddleParts(x: Header, b: Bytes)
    requires HeaderFits(x) && b == MiddleBytes(x)
    ensures b[0..2] == HalfBytes(x.kind) && b[2..4] == HalfBytes(x.machine)
    ensures b[8..12] == WordBytes(x.entry) && b[12..16] == WordBytes(x.phoff)
  {
  }

  lemma TailParts(x: Header, b: Bytes)
    requires HeaderFits(x) && b == TailBytes(x)
    ensures b[2..4] == HalfBytes(x.phentsize) && b[4..6] == HalfBytes(x.phnum)
  {
  }

  /** What the loader reads from a file header is what was written, and it accepts the header exactly of a
      32-bit RISC-V executable with 32-byte program headers. */
  lemma HeaderRead(img: Image, x: Header)
    requires HeaderFits(x) && |img.bytes| >= 52 && img.bytes[..52] == HeaderBytes(x)
    ensures Entry(img) == x.entry && Phoff(img) == x.phoff && Phnum(img) == x.phnum
    ensures HeaderOk(img) <==>
            x.magic == 0x464C_457F && x.ident[0] == 1 && x.kind == 2 && x.machine == 243 && x.phentsize == 32
  {
    var b, w := img.bytes, HeaderBytes(x);
    HeaderParts(x, w);
    assert b[0..0 + |w|] == w;
    Part(b, 0, w, 0, 4);
    Part(b, 0, w, 16, 2);
    Part(b, 0, w, 18, 2);
    Part(b, 0, w, 24, 4);
    Part(b, 0, w, 28, 4);
    Part(b, 0, w, 42, 2);
    Part(b, 0, w, 44, 2);
    assert b[4] == w[4];
    WordRead(img, 0, x.magic);
    HalfRead(img, 16, x.kind);
    HalfRead(img, 18, x.machine);
    WordRead(img, 24, x.entry);
    WordRead(img, 28, x.phoff);
    HalfRead(img, 42, x.phentsize);
    HalfRead(img, 44, x.phnum);
  }

  lemma PhdrParts(h: Segment, pa: nat, align: nat, b: Bytes)
    requires SegmentFits32Bits(h) && pa < 0x1_0000_0000 && align < 0x1_0000_0000 && b == PhdrBytes(h, pa, align)
    ensures b[0..4] == WordBytes(h.kind) && b[4..8] == WordBytes(h.offset) && b[8..12] == WordBytes(h.va)
    ensures b[16..20] == WordBytes(h.filesz) && b[20..24] == WordBytes(h.memsz) && b[24..28] == WordBytes(h.flags)
  {
  }

  /** A program header reads back as written. */
  lemma SegmentRead(img: Image, off: nat, h: Segment, pa: nat, align: nat)
    requires SegmentFits32Bits(h) && pa < 0x1_0000_0000 && align < 0x1_0000_0000
    requires off + 32 <= |img.bytes| && img.bytes[off..off + 32] == PhdrBytes(h, pa, align)
    ensures SegmentAt(img, off) == h
  {
    var b, w := img.bytes, PhdrBytes(h, pa, align);
    PhdrParts(h, pa, align, w);
    Part(b, off, w, 0, 4);
    Part(b, off, w, 4, 4);
    Part(b, off, w, 8, 4);
    Part(b, off, w, 16, 4);
    Part(b, off, w, 20, 4);
    Part(b, off, w, 24, 4);
    WordRead(img, off, h.kind);
    WordRead(img, off + 4, h.offset);
    WordRead(img, off + 8, h.va);
    WordRead(img, off + 16, h.filesz);
    WordRead(img, off + 20, h.memsz);
    WordRead(img, off + 24, h.flags);
  }

  // ---------------------------------------------------------------- whole files

  /** The program header at offset off is h. */
  ghost predicate HoldsPhdr(b: Bytes, off: nat, h: Segment) {
    && SegmentFits32Bits(h) && off + 32 <= |b|
    && exists pa: nat, align: nat ::
         pa < 0x1_0000_0000 && align < 0x1_0000_0000 && b[off..off + 32] == PhdrBytes(h, pa, align)
  }

  /** The file with header x and program headers segs. */
  ghost predicate IsFile(b: Bytes, x: Header, segs: seq<Segment>) {
    && HeaderFits(x) && 52 <= |b| <= 0x800_0000 && b[..52] == HeaderBytes(x) && x.phnum == |segs|
    && x.magic == 0x464C_457F && x.ident[0] == 1 && x.kind == 2 && x.machine == 243 && x.phentsize == 32
    && forall i :: 0 <= i < |segs| ==> HoldsPhdr(b, x.phoff + 32 * i, segs[i])
  }

  lemma PhdrRead(img: Image, off: nat, h: Segment)
    requires HoldsPhdr(img.bytes, off, h)
    ensures off + 32 <= |img.bytes| && SegmentAt(img, off) == h
  {
    var pa: nat, align: nat :|
      pa < 0x1_0000_0000 && align < 0x1_0000_0000 && img.bytes[off..off + 32] == PhdrBytes(h, pa, align);
    SegmentRead(img, off, h, pa, align);
  }

  lemma NoWrap(img: Image, phoff: nat, i: nat, off: nat)
    requires Phoff(img) == phoff && off == phoff + 32 * i && off + 32 <= |img.bytes| <= 0x800_0000
    ensures HeaderOffset(img, i) == off && HeaderInFile(img, i)
  {
  }

  lemma TableRead(img: Image, x: Header, segs: seq<Segment>, i: nat)
    requires IsFile(img.bytes, x, segs) && i < |segs|
    ensures HeaderInFile(img, i) && SegmentOf(img, i) == segs[i]
  {
    var off, h := x.phoff + 32 * i, segs[i];
    assert HoldsPhdr(img.bytes, off, h);
    HeaderRead(img, x);
    PhdrRead(img, off, h);
    NoWrap(img, x.phoff, i, off);
  }

  /** What the loader reads is segs. */
  ghost predicate ReadsAs(img: Image, segs: seq<Segment>) {
    forall i :: 0 <= i < |segs| ==> HeaderInFile(img, i) && SegmentOf(img, i) == segs[i]
  }

  /** A segment of type PT_LOAD that is not empty. */
  predicate Loadable(h: Segment) {
    h.kind == 1 && h.memsz > 0
  }

  /** Taken alone, the segment can be loaded: page aligned, in user space, its bytes in the file. */
  predicate Sound(h: Segment, len: nat) {
    && h.va % 4096 == 0 && h.va + h.memsz <= UART_0
    && h.filesz <= h.memsz && h.offset + h.filesz <= len
  }

  /** From segment i on, the loadable ones are sound, lie above size, and each lies above all before it. */
  ghost predicate LaidOut(segs: seq<Segment>, i: nat, size: nat, len: nat) {
    && (forall j :: i <= j < |segs| && Loadable(segs[j]) ==> Sound(segs[j], len) && size <= segs[j].va)
    && (forall j, k :: i <= j < k < |segs| && Loadable(segs[j]) && Loadable(segs[k]) ==>
          segs[j].va + segs[j].memsz <= segs[k].va)
  }

  lemma LaidOutNext(segs: seq<Segment>, i: nat, i': nat, size: nat, len: nat, h: Segment, end: nat)
    requires i < |segs| && i' == i + 1 && h == segs[i] && end == h.va + h.memsz
    ensures !Loadable(h) ==> LaidOut(segs, i, size, len) == LaidOut(segs, i', size, len)
    ensures Loadable(h) ==>
              (LaidOut(segs, i, size, len) <==> Sound(h, len) && size <= h.va && LaidOut(segs, i', end, len))
  {
    if Loadable(h) && Sound(h, len) && size <= h.va {
      if LaidOut(segs, i', end, len) {
        forall j | i <= j < |segs| && Loadable(segs[j])
          ensures Sound(segs[j], len) && size <= segs[j].va
        {
          assert j != i ==> end <= segs[j].va;
        }
      }
    }
  }

  lemma {:induction false} EndsIff(img: Image, segs: seq<Segment>, i: nat, size: nat)
    requires ReadsAs(img, segs) && i <= |segs|
    ensures EndAfter(img, i, |segs|, size) >= 0 <==> LaidOut(segs, i, size, |img.bytes|)
    decreases |segs| - i
  {
    if i < |segs| {
      var h, i', len := segs[i], i + 1, |img.bytes|;
      var end := h.va + h.memsz;
      LaidOutNext(segs, i, i', size, len, h, end);
      EndStep(img, segs, i, i', size, h, end);
      EndsIff(img, segs, i', size);
      EndsIff(img, segs, i', end);
    }
  }

  lemma EndStep(img: Image, segs: seq<Segment>, i: nat, i': nat, size: nat, h: Segment, end: nat)
    requires ReadsAs(img, segs) && i < |segs| && i' == i + 1 && h == segs[i] && end == h.va + h.memsz
    ensures EndAfter(img, i, |segs|, size) ==
            if !Loadable(h) then EndAfter(img, i', |segs|, size)
            else if Sound(h, |img.bytes|) && size <= h.va then EndAfter(img, i', |segs|, end)
            else -1
  {
  }

  /** load_elf accepts a file exactly if its loadable segments are sound, start above the first page, and come in
      ascending order without overlap; what it then loads are the segments that were written. */
  lemma AcceptsWellLaidOut(img: Image, x: Header, segs: seq<Segment>)
    requires IsFile(img.bytes, x, segs)
    ensures Accepted(img) <==> LaidOut(segs, 0, 0x1000, |img.bytes|)
    ensures Entry(img) == x.entry && Phnum(img) == |segs|
    ensures forall i :: 0 <= i < |segs| ==> SegmentOf(img, i) == segs[i] && (Loads(segs[i]) <==> Loadable(segs[i]))
  {
    HeaderRead(img, x);
    forall i | 0 <= i < |segs|
      ensures HeaderInFile(img, i) && SegmentOf(img, i) == segs[i]
    {
      TableRead(img, x, segs, i);
    }
    EndsIff(img, segs, 0, USER_BASE);
  }
}

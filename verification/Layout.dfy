/** Page, address and page-table-entry arithmetic: kernel/mem.h, kernel/vm.h and kernel/uart.h.
    The entry format is that of Sv32, section 4.3 of the RISC-V Privileged Architecture. */
module Layout {

  /** Physical page numbers of RAM: MEM_START and MEM_END divided by the page size. */
  const RAM_FIRST: nat := 0x80000
  const RAM_END: nat := 0x88000
  const NUM_PAGES: nat := 32768

  const MEM_START: nat := 0x8000_0000
  const MEM_END: nat := 0x8800_0000
  const USER_BASE: nat := 0x1000
  const UART_0: nat := 0x1000_0000
  const USER_STACK_TOP: nat := 0xFFFF_D000

  /** Virtual page numbers: 20 bits; the user image ends below the UART; one stack page. */
  const VPNS: nat := 0x10_0000
  const UART_VPN: nat := 0x10000
  const STACK_VPN: nat := 0xFFFFC

  const PTE_V: nat := 1
  const PTE_R: nat := 2
  const PTE_W: nat := 4
  const PTE_X: nat := 8
  const PTE_U: nat := 16

  type Byte = b: int | 0 <= b < 256
  type Page = p: seq<Byte> | |p| == 4096 witness seq(4096, _ => 0)

  /** Physical memory: the contents of every RAM page, by physical page number. */
  type Ram = map<nat, Page>

  const ZERO_PAGE: Page := Zeros()

  function Zeros(): (p: Page)
    ensures forall i :: 0 <= i < 4096 ==> p[i] == 0
  {
    seq(4096, _ => 0)
  }

  predicate InRam(ppn: nat) {
    RAM_FIRST <= ppn < RAM_END
  }

  function PageUp(a: nat): nat {
    (a + 4096 - 1) / 4096 * 4096
  }

  // ---------------------------------------------------------------- page-table entries

  /** Whether one of the five low bits is set: pte & bit. */
  predicate HasBit(pte: nat, bit: nat) {
    match bit
    case 1 => pte % 2 == 1
    case 2 => pte / 2 % 2 == 1
    case 4 => pte / 4 % 2 == 1
    case 8 => pte / 8 % 2 == 1
    case 16 => pte / 16 % 2 == 1
    case _ => false
  }

  predicate IsValid(pte: nat) {
    pte % 2 == 1
  }

  function Ppn(pte: nat): nat {
    pte / 1024
  }

  /** PTE2PA: ((pte >> 10) << 12) in 32 bits. */
  function PteToPa(pte: nat): nat {
    pte / 1024 * 4096 % 0x1_0000_0000
  }

  /** PTE_FLAGS: the low ten bits. */
  function PteFlags(pte: nat): nat {
    pte % 1024
  }

  /** PA2PTE(pa) | flags | PTE_V. */
  function MakePte(pa: nat, flags: nat): nat {
    pa / 4096 * 1024 + (if flags % 2 == 1 then flags else flags + 1)
  }

  /** Encoding and decoding an entry are inverse to each other, and the valid bit is always set. */
  lemma PteRoundTrip(pa: nat, flags: nat)
    requires pa < 0x1_0000_0000 && pa % 4096 == 0 && flags < 1024
    ensures var e := MakePte(pa, flags);
            && e < 0x1_0000_0000 && IsValid(e) && PteToPa(e) == pa && Ppn(e) == pa / 4096
            && PteFlags(e) / 2 == flags / 2 && (flags % 2 == 1 ==> PteFlags(e) == flags)
            && MakePte(PteToPa(e), PteFlags(e)) == e
  {
  }

  /** The permission bits of an encoded entry are those of the flags it was made from. */
  lemma PteBits(pa: nat, flags: nat)
    requires pa < 0x1_0000_0000 && pa % 4096 == 0 && flags < 1024
    ensures var e := MakePte(pa, flags);
            && HasBit(e, PTE_R) == HasBit(flags, PTE_R) && HasBit(e, PTE_W) == HasBit(flags, PTE_W)
            && HasBit(e, PTE_X) == HasBit(flags, PTE_X) && HasBit(e, PTE_U) == HasBit(flags, PTE_U)
  {
    var n, h := pa / 4096, flags / 2;
    // both are even, or odd, in bit 0 only: halve once and compare the quotients
    assert MakePte(pa, flags) / 2 == n * 512 + h;
    HalvedBits(n, h);
    assert MakePte(pa, flags) / 4 == MakePte(pa, flags) / 2 / 2 && flags / 4 == h / 2;
    assert MakePte(pa, flags) / 8 == MakePte(pa, flags) / 2 / 4 && flags / 8 == h / 4;
    assert MakePte(pa, flags) / 16 == MakePte(pa, flags) / 2 / 8 && flags / 16 == h / 8;
  }

  lemma Halve(k: nat, h: nat)
    ensures (2 * k + h) / 2 == k + h / 2 && (2 * k + h) % 2 == h % 2
  {
  }

  lemma HalvedBits(n: nat, h: nat)
    ensures var x := n * 512 + h;
            x % 2 == h % 2 && x / 2 % 2 == h / 2 % 2 && x / 4 % 2 == h / 4 % 2 && x / 8 % 2 == h / 8 % 2
  {
    var x, h2, h4 := n * 512 + h, h / 2, h / 4;
    Halve(n * 256, h);
    Halve(n * 128, h2);
    Quarter(x);
    Quarter(h);
    Halve(n * 64, h4);
    Eighth(x);
    Eighth(h);
    Halve(n * 32, h / 8);
  }

  lemma Quarter(x: nat)
    ensures x / 2 / 2 == x / 4
  {
  }

  lemma Eighth(x: nat)
    ensures x / 4 / 2 == x / 8
  {
  }

  // ---------------------------------------------------------------- 32-bit words in pages

  /** The little-endian word k of a page. */
  function Word(p: Page, k: nat): (w: nat)
    requires k < 1024
    ensures w < 0x1_0000_0000
  {
    var b0: int, b1: int, b2: int, b3: int := p[4 * k], p[4 * k + 1], p[4 * k + 2], p[4 * k + 3];
    b0 + 0x100 * b1 + 0x1_0000 * b2 + 0x100_0000 * b3
  }

  function SetWord(p: Page, k: nat, w: nat): Page
    requires k < 1024 && w < 0x1_0000_0000
  {
    p[4 * k := w % 0x100][4 * k + 1 := w / 0x100 % 0x100]
    [4 * k + 2 := w / 0x1_0000 % 0x100][4 * k + 3 := w / 0x100_0000]
  }

  /** Writing a word and reading words back. */
  lemma WordAfterSet(p: Page, k: nat, w: nat, j: nat)
    requires k < 1024 && j < 1024 && w < 0x1_0000_0000
    ensures Word(SetWord(p, k, w), j) == if j == k then w else Word(p, j)
  {
    var q := SetWord(p, k, w);
    if j == k {
      assert q[4 * k] == w % 0x100 && q[4 * k + 1] == w / 0x100 % 0x100;
      assert q[4 * k + 2] == w / 0x1_0000 % 0x100 && q[4 * k + 3] == w / 0x100_0000;
      SplitWord(w);
    } else {
      assert q[4 * j] == p[4 * j] && q[4 * j + 1] == p[4 * j + 1];
      assert q[4 * j + 2] == p[4 * j + 2] && q[4 * j + 3] == p[4 * j + 3];
    }
  }

  lemma SplitWord(w: nat)
    requires w < 0x1_0000_0000
    ensures w == w % 0x100 + 0x100 * (w / 0x100 % 0x100)
                 + 0x1_0000 * (w / 0x1_0000 % 0x100) + 0x100_0000 * (w / 0x100_0000)
  {
  }

  lemma ZeroWord(k: nat)
    requires k < 1024
    ensures Word(ZERO_PAGE, k) == 0
  {
  }
}

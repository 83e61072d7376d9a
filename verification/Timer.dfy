/** 64-bit timer values in 32-bit halves: r_time64 and w_stimecmp64 of kernel/csr.c. */
module Timer {

  const HALF: nat := 0x1_0000_0000
  const LOW_MAX: nat := 0xFFFF_FFFF

  /** The value of the time CSR at each instant: 64 bits, never running backwards. */
  ghost predicate IsClock(clock: nat -> nat) {
    && (forall i: nat :: clock(i) < HALF * HALF)
    && (forall i: nat, j: nat :: i <= j ==> clock(i) <= clock(j))
  }

  /** r_time64: high, low, high again, until the two high halves agree.  One instant passes between
      two reads.  The result is the clock's exact value at the instant `at` of the last low read. */
  method ReadTime(clock: nat -> nat, start: nat) returns (time: nat, at: nat)
    requires IsClock(clock)
    ensures at >= start + 1 && time == clock(at)
  {
    var k := start;
    var hi, lo, hi2 := clock(k) / HALF, clock(k + 1) % HALF, clock(k + 2) / HALF;
    while hi != hi2
      invariant k >= start
      invariant hi == clock(k) / HALF && lo == clock(k + 1) % HALF && hi2 == clock(k + 2) / HALF
      decreases HALF - clock(k) / HALF
    {
      assert clock(k) <= clock(k + 2) <= clock(k + 3);
      k := k + 3;
      hi, lo, hi2 := clock(k) / HALF, clock(k + 1) % HALF, clock(k + 2) / HALF;
    }
    assert clock(k) <= clock(k + 1) <= clock(k + 2);
    time := hi * HALF + lo;
    at := k + 1;
  }

  function Min(a: nat, b: nat): nat {
    if a <= b then a else b
  }

  /** stimecmp and stimecmph.  The hardware compares continuously, so every value the pair takes is
      live; `shown` records them, one per register write. */
  class CompareRegister {
    var lo: nat
    var hi: nat
    ghost var shown: seq<nat>

    ghost predicate Valid()
      reads this
    {
      lo < HALF && hi < HALF
    }

    function Value(): nat
      reads this
    {
      hi * HALF + lo
    }

    method WriteLow(v: nat)
      requires Valid() && v < HALF
      modifies this
      ensures Valid() && lo == v && hi == old(hi) && shown == old(shown) + [Value()]
    {
      lo := v;
      shown := shown + [Value()];
    }

    method WriteHigh(v: nat)
      requires Valid() && v < HALF
      modifies this
      ensures Valid() && hi == v && lo == old(lo) && shown == old(shown) + [Value()]
    {
      hi := v;
      shown := shown + [Value()];
    }

    /** w_stimecmp64: park the low half, write the high half, write the low half.  No live value is
        below both the old and the new deadline, so no interrupt fires that neither justifies. */
    method Write(x: nat)
      requires Valid() && x < HALF * HALF
      modifies this
      ensures Valid() && Value() == x
      ensures shown == old(shown) + [old(hi) * HALF + LOW_MAX, x / HALF * HALF + LOW_MAX, x]
      ensures forall i :: |old(shown)| <= i < |shown| ==> shown[i] >= Min(old(Value()), x)
    {
      WriteLow(LOW_MAX);
      WriteHigh(x / HALF);
      WriteLow(x % HALF);
    }
  }
}

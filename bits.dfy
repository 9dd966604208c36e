/** Machine widths, register-pair composition and the even-parity helper of the
    8080 core (`parity` in src/cpu.rs). */
module Bits {

  /** An 8-bit register or memory cell. */
  type u8 = x: int | 0 <= x < 0x100

  /** A 16-bit register pair or stack pointer. */
  type u16 = x: int | 0 <= x < 0x1_0000

  /** The register pair `(hi << 8) | lo`. */
  function Pair(hi: u8, lo: u8): u16 {
    hi * 0x100 + lo
  }

  /** A register pair splits back into the two registers it was built from. */
  lemma PairSplits(hi: u8, lo: u8)
    ensures Pair(hi, lo) / 0x100 == hi && Pair(hi, lo) % 0x100 == lo
  {
  }

  /** Two register pairs with the same value hold the same registers. */
  lemma PairInjective(hi: u8, lo: u8, hi': u8, lo': u8)
    requires Pair(hi, lo) == Pair(hi', lo')
    ensures hi == hi' && lo == lo'
  {
    PairSplits(hi, lo);
    PairSplits(hi', lo');
  }

  /** Bit 7 (`v & 0x80 == 0x80`) of a byte is set iff the byte is at least 0x80. */
  lemma SignBit(v: u8)
    ensures (v / 0x80) % 2 == 1 <==> v >= 0x80
  {
  }

  /** The low 16 bits of a 17-bit sum are its bits 8..15 shifted back up, plus
      its bits 0..7. */
  lemma Low16(res: nat)
    requires res < 0x2_0000
    ensures res % 0x1_0000 == ((res / 0x100) % 0x100) * 0x100 + res % 0x100
  {
  }

  /** The number of set bits among the low `k` bits of `n`. */
  function OnesBelow(n: nat, k: nat): (r: nat)
    ensures r <= k
  {
    if k == 0 then 0 else n % 2 + OnesBelow(n / 2, k - 1)
  }

  /** `m << k`, by doubling, so that the proofs below stay linear. */
  function Shl(m: nat, k: nat): nat {
    if k == 0 then m else 2 * Shl(m, k - 1)
  }

  /** Setting any bits at positions `k` and above leaves the low `k` bits of
      `n`, and so their count, unchanged. */
  lemma {:induction false} OnesBelowIgnoresHighBits(n: nat, m: nat, k: nat)
    ensures OnesBelow(n + Shl(m, k), k) == OnesBelow(n, k)
  {
    if k > 0 {
      var q := Shl(m, k - 1);
      assert (n + 2 * q) % 2 == n % 2;
      assert (n + 2 * q) / 2 == n / 2 + q;
      OnesBelowIgnoresHighBits(n / 2, m, k - 1);
    }
  }

  /** Shifting left by 8 multiplies by 256. */
  lemma ShlByte(m: nat)
    ensures Shl(m, 8) == m * 0x100
  {
    assert Shl(m, 1) == 2 * m;
    assert Shl(m, 2) == 4 * m;
    assert Shl(m, 3) == 8 * m;
    assert Shl(m, 4) == 16 * m;
    assert Shl(m, 5) == 32 * m;
    assert Shl(m, 6) == 64 * m;
    assert Shl(m, 7) == 128 * m;
  }

  /** `parity(num, 8)` looks at the low byte of its 16-bit argument and
      nothing else: the count of set bits among the low 8 bits of `n` is that
      of `n % 256`. */
  lemma OnesBelowLowByte(n: nat)
    ensures OnesBelow(n, 8) == OnesBelow(n % 0x100, 8)
  {
    ShlByte(n / 0x100);
    OnesBelowIgnoresHighBits(n % 0x100, n / 0x100, 8);
  }

  /** `parity(num, size)` with the shift kept: true iff the low `size` bits of
      `num` hold an even number of ones. `count` is a `u8`, which cannot
      overflow because it never exceeds `size`. */
  method Parity(num: u16, size: u8) returns (even: bool)
    ensures even <==> OnesBelow(num, size) % 2 == 0
    ensures size == 8 ==> (even <==> OnesBelow(num % 0x100, 8) % 2 == 0)
  {
    OnesBelowLowByte(num);
    var n: nat := num;
    var count: u8 := 0;
    for i := 0 to size
      invariant count <= i
      invariant count + OnesBelow(n, size - i) == OnesBelow(num, size)
    {
      if n % 2 == 1 {
        count := count + 1;
      }
      n := n / 2;
    }
    even := count % 2 == 0;
  }

  /** `parity(num, size)` as written: `num >> 1` is evaluated and thrown away,
      so bit 0 of `num` is tested `size` times. The result depends only on
      bit 0 and on whether `size` is even; for `size == 8` it is always true. */
  method ParityAsWritten(num: u16, size: u8) returns (even: bool)
    ensures even <==> num % 2 == 0 || size % 2 == 0
  {
    var count: u8 := 0;
    for i := 0 to size
      invariant count <= i
      invariant count == if num % 2 == 1 then i else 0
    {
      if num % 2 == 1 {
        count := count + 1;
      }
    }
    even := count % 2 == 0;
  }

  /** The byte 0x01 has one set bit, so its parity is odd; the loop as written
      still reports it even. */
  method ParityDisagreesOnOne() returns (asWritten: bool, intended: bool)
    ensures asWritten && !intended
  {
    asWritten := ParityAsWritten(1, 8);
    intended := Parity(1, 8);
    assert OnesBelow(1, 8) == 1;
  }
}

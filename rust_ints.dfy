/** Rust's fixed-width integer types and the primitive operations on them that
    the CMP executor uses: `wrapping_sub`, `+=` on a `u64`, the `as i8`
    reinterpretation and `count_ones`. The types are integers with their Rust
    ranges; bitwise operators go through Dafny's bit-vector view of the same
    value (`x as bv8`), and the lemmas at the end bridge the two views. */
module RustInts {

  const U64_MODULUS: int := 0x1_0000_0000_0000_0000

  newtype u8 = x: int | 0 <= x < 0x100
  newtype u16 = x: int | 0 <= x < 0x1_0000
  newtype u64 = x: int | 0 <= x < 0x1_0000_0000_0000_0000
  newtype i8 = x: int | -0x80 <= x < 0x80

  /** `x.wrapping_sub(y)` on `u8`: the byte that added to `y` gives `x` again,
      which is the exact difference when no borrow occurs. */
  function WrappingSub(x: u8, y: u8): (r: u8)
    ensures (r as int + y as int) % 0x100 == x as int
    ensures y <= x ==> r as int == x as int - y as int
    ensures x < y ==> r as int == x as int - y as int + 0x100
  {
    ((x as int - y as int) % 0x100) as u8
  }

  /** `x + n` on `u64` with two's-complement wrap-around. */
  function WrappingAdd(x: u64, n: u64): (r: u64)
    ensures x as int + n as int < U64_MODULUS ==> r as int == x as int + n as int
    ensures x as int + n as int >= U64_MODULUS ==> r as int == x as int + n as int - U64_MODULUS
  {
    ((x as int + n as int) % U64_MODULUS) as u64
  }

  /** Two wrapping additions wrap their sum once. */
  lemma WrappingAddTwice(x: u64, m: u64, n: u64)
    ensures WrappingAdd(WrappingAdd(x, m), n) as int == (x as int + m as int + n as int) % U64_MODULUS
  {
  }

  /** `x as i8`: the same eight bits read in two's complement. */
  function AsI8(x: u8): (v: i8)
    ensures v as int % 0x100 == x as int
    ensures 0 <= v <==> x < 0x80
  {
    if x < 0x80 then x as int as i8 else (x as int - 0x100) as i8
  }

  /** The number of set bits among the `k` lowest bits of `x`, lowest bit first. */
  function CountLowOnes(x: bv8, k: nat): (n: nat)
    requires k <= 8
    ensures n <= k
    decreases k
  {
    if k == 0 then 0
    else (if x & 1 == 1 then 1 else 0) + CountLowOnes(x >> 1, k - 1)
  }

  /** `x.count_ones()` on `u8`. */
  function CountOnes(x: u8): (n: nat)
    ensures n <= 8
  {
    CountLowOnes(x as bv8, 8)
  }

  /** Reference population count on unbounded naturals: the number of ones in
      the binary representation of `n`. */
  function BitCount(n: nat): (c: nat)
  {
    if n == 0 then 0 else n % 2 + BitCount(n / 2)
  }

  function Pow2(k: nat): (p: nat)
  {
    if k == 0 then 1 else 2 * Pow2(k - 1)
  }

  /** The bit-vector view of a byte has the byte's value. */
  lemma BitsOfByte(x: u8)
    ensures (x as bv8) as int == x as int
  {
  }

  /** Shifting right by one halves the value; the lowest bit is its parity. */
  lemma ShiftRightHalves(x: bv8)
    ensures (x >> 1) as int == x as int / 2
    ensures (x & 1 == 1) <==> x as int % 2 == 1
  {
  }

  lemma {:induction false} CountLowOnesIsBitCount(x: bv8, k: nat)
    requires k <= 8
    requires x as int < Pow2(k)
    ensures CountLowOnes(x, k) == BitCount(x as int)
    decreases k
  {
    if k == 0 {
      assert x == 0;
    } else {
      ShiftRightHalves(x);
      CountLowOnesIsBitCount(x >> 1, k - 1);
    }
  }

  /** A byte holds eight bits. */
  lemma Pow2Eight()
    ensures Pow2(8) == 0x100
  {
  }

  /** The bit-level `count_ones` agrees with the reference population count. */
  lemma CountOnesIsBitCount(x: u8)
    ensures CountOnes(x) == BitCount(x as int)
  {
    Pow2Eight();
    BitsOfByte(x);
    CountLowOnesIsBitCount(x as bv8, 8);
  }
}

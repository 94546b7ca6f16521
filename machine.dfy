/** The fixed-width integers of the Rust source, the `as` casts the host functions apply to
    guest values, and the little-endian byte order of the guest's linear memory. */
module Machine {

  const TWO_8: nat := 0x100
  const TWO_31: nat := 0x8000_0000
  const TWO_32: nat := 0x1_0000_0000
  const TWO_63: nat := 0x8000_0000_0000_0000
  const TWO_64: nat := 0x1_0000_0000_0000_0000

  type u8 = x: int | 0 <= x < 0x100
  type u32 = x: int | 0 <= x < 0x1_0000_0000
  /** `u64`, and also `usize`: the runtime is built for 64-bit hosts. */
  type u64 = x: int | 0 <= x < 0x1_0000_0000_0000_0000
  type i32 = x: int | -0x8000_0000 <= x < 0x8000_0000
  type i64 = x: int | -0x8000_0000_0000_0000 <= x < 0x8000_0000_0000_0000

  /** Byte strings: guest memory, variable values, config keys and values. */
  type Bytes = seq<u8>

  // ---------------------------------------------------------------------------
  // `as` casts. Each result is the unique value of the target width that is
  // congruent to the argument modulo 2^width (two's complement).
  // ---------------------------------------------------------------------------

  /** `x as u64` (and `x as usize`) for an `i64`. */
  function I64AsU64(x: i64): (r: u64)
    ensures (r - x) % TWO_64 == 0
    ensures 0 <= x ==> r == x
  {
    if x < 0 then x + TWO_64 else x
  }

  /** `x as i64` for a `u64` or `usize`; inverse of I64AsU64 in both directions. */
  function U64AsI64(x: u64): (r: i64)
    ensures (r - x) % TWO_64 == 0
    ensures I64AsU64(r) == x
    ensures forall y: i64 {:trigger I64AsU64(y)} :: I64AsU64(y) == x ==> r == y
  {
    if x < TWO_63 then x else x - TWO_64
  }

  /** `x as u32` for an `i32`. */
  function I32AsU32(x: i32): (r: u32)
    ensures (r - x) % TWO_32 == 0
    ensures 0 <= x ==> r == x
  {
    if x < 0 then x + TWO_32 else x
  }

  /** `x as i32` for a `u32`; inverse of I32AsU32 in both directions. */
  function U32AsI32(x: u32): (r: i32)
    ensures (r - x) % TWO_32 == 0
    ensures I32AsU32(r) == x
    ensures forall y: i32 {:trigger I32AsU32(y)} :: I32AsU32(y) == x ==> r == y
  {
    if x < TWO_31 then x else x - TWO_32
  }

  /** `x as u8` for an `i32`: keeps the low eight bits. */
  function I32AsU8(x: i32): (r: u8)
    ensures (x - r) % TWO_8 == 0
    ensures 0 <= x < TWO_8 ==> r == x
  {
    x % TWO_8
  }

  // ---------------------------------------------------------------------------
  // Little-endian encoding of unsigned values.
  // ---------------------------------------------------------------------------

  function Pow256(n: nat): (r: nat)
    ensures r >= 1
  {
    if n == 0 then 1 else TWO_8 * Pow256(n - 1)
  }

  lemma Pow256Widths()
    ensures Pow256(1) == TWO_8
    ensures Pow256(4) == TWO_32
    ensures Pow256(8) == TWO_64
  {
    assert Pow256(2) == 0x1_0000;
    assert Pow256(3) == 0x100_0000;
    assert Pow256(4) == TWO_32;
    assert Pow256(5) == 0x100_0000_0000;
    assert Pow256(6) == 0x1_0000_0000_0000;
    assert Pow256(7) == 0x100_0000_0000_0000;
  }

  /** The unsigned value whose little-endian bytes are `b`. */
  function LeDecode(b: Bytes): (v: nat)
    ensures v < Pow256(|b|)
  {
    if b == [] then 0 else b[0] + TWO_8 * LeDecode(b[1..])
  }

  /** The `n` little-endian bytes of `v`, keeping `v` modulo 256^n. */
  function LeEncode(v: nat, n: nat): (b: Bytes)
    ensures |b| == n
  {
    if n == 0 then [] else [v % TWO_8] + LeEncode(v / TWO_8, n - 1)
  }

  /** Encoding a value that fits in `n` bytes and decoding it gives it back. */
  lemma {:induction false} LeDecodeEncode(v: nat, n: nat)
    requires v < Pow256(n)
    ensures LeDecode(LeEncode(v, n)) == v
  {
    if n > 0 {
      var e := LeEncode(v, n);
      assert e[1..] == LeEncode(v / TWO_8, n - 1);
      LeDecodeEncode(v / TWO_8, n - 1);
    }
  }

  /** Decoding bytes and encoding the value at the same width gives the bytes back. */
  lemma {:induction false} LeEncodeDecode(b: Bytes)
    ensures LeEncode(LeDecode(b), |b|) == b
  {
    if b != [] {
      var v := LeDecode(b);
      assert v % TWO_8 == b[0] && v / TWO_8 == LeDecode(b[1..]);
      LeEncodeDecode(b[1..]);
    }
  }
}

/**
 * The fixed-width integers of the source and Rust's `as` casts between them.
 * A cast reinterprets the low bits, so it is written out as arithmetic modulo
 * a power of two.
 */
module MachineInt {

  type I8 = x: int | -128 <= x < 128
  type U8 = x: int | 0 <= x < 0x100
  type U32 = x: int | 0 <= x < 0x1_0000_0000

  const USIZE_MODULUS: int := 0x1_0000_0000_0000_0000

  /** `v as u32`: keep the low 32 bits. */
  function AsU32(v: int): (r: U32)
    ensures (v - r) % 0x1_0000_0000 == 0
    ensures 0 <= v < 0x1_0000_0000 ==> r == v
  {
    v % 0x1_0000_0000
  }

  /** `v as i8`: keep the low eight bits, read as two's complement. */
  function AsI8(v: int): (r: I8)
    ensures (v - r) % 0x100 == 0
    ensures -128 <= v < 128 ==> r == v
  {
    (v + 128) % 0x100 - 128
  }

  /** `v as usize` for an `i8`: sign extension, so a negative value becomes huge. */
  function AsUsize(v: I8): (r: nat)
    ensures v >= 0 ==> r == v
    ensures v < 0 ==> r >= USIZE_MODULUS - 128
  {
    if v >= 0 then v else USIZE_MODULUS + v
  }

  function Abs(v: int): nat
  {
    if v < 0 then -v else v
  }

  function Max(a: int, b: int): int
  {
    if a < b then b else a
  }

  function Min(a: int, b: int): int
  {
    if a < b then a else b
  }
}

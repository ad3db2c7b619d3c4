/**
  The ntrulpr761 parameter set and the fixed-width integer ranges of the
  Rust implementation.  The source selects one parameter record at build
  time; this model fixes the ntrulpr761 record.
 */
module Params {

  /** Ring degree: the quotient is x^P - x - 1. */
  const P: nat := 761
  /** The large (prime) modulus of Rq. */
  const Q: nat := 4591
  /** (Q - 1) / 2, the bound of the centered representatives of Z/QZ. */
  const Q12: nat := 2295
  /** Target Hamming weight of short polynomials. */
  const W: nat := 250
  /** Length of the plaintext input vector. */
  const I: nat := 256
  /** Rounding constants of the `top` map. */
  const TAU0: nat := 2156
  const TAU1: nat := 114
  /** Byte lengths. */
  const TOP_BYTES: nat := 128
  const INPUTS_BYTES: nat := 32
  const SEEDS_BYTES: nat := 32
  const ROUNDED_BYTES: nat := 1007
  const PUBLICKEYS_BYTES: nat := 1039
  const HASH_BYTES: nat := 32
  const CIPHERTEXTS_BYTES: nat := 1135

  predicate IsI8(x: int) { -0x80 <= x < 0x80 }
  predicate IsU8(x: int) { 0 <= x < 0x100 }
  predicate IsI16(x: int) { -0x8000 <= x < 0x8000 }
  predicate IsI32(x: int) { -0x8000_0000 <= x < 0x8000_0000 }

  /** The two's-complement reinterpretation `x as i8` of any integer. */
  function WrapI8(x: int): (r: int)
    ensures IsI8(r)
    ensures (r - x) % 256 == 0
    ensures IsI8(x) ==> r == x
  {
    var m := x % 256;
    if m < 128 then m else m - 256
  }

  /** The two's-complement reinterpretation `x as i16` of any integer. */
  function WrapI16(x: int): (r: int)
    ensures IsI16(r)
    ensures (r - x) % 0x1_0000 == 0
    ensures IsI16(x) ==> r == x
  {
    var m := x % 0x1_0000;
    if m < 0x8000 then m else m - 0x1_0000
  }

  /** The reinterpretation `x as u8` of any integer. */
  function WrapU8(x: int): (r: int)
    ensures IsU8(r)
    ensures (r - x) % 256 == 0
    ensures IsU8(x) ==> r == x
  {
    x % 256
  }

  /** The parameter record is self-consistent. */
  lemma ParamsConsistent()
    ensures Q == 2 * Q12 + 1
    ensures I == 2 * TOP_BYTES && I == 8 * INPUTS_BYTES
    ensures PUBLICKEYS_BYTES == SEEDS_BYTES + ROUNDED_BYTES
    ensures CIPHERTEXTS_BYTES == ROUNDED_BYTES + TOP_BYTES
    ensures W <= I <= P
  {
  }
}

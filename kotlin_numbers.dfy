/**
 * The fixed-width integer types of Kotlin that the beacon log uses, and the
 * truncating conversion `Int.toUShort()`.
 */
module KotlinNumbers {

  const TWO_16: int := 0x1_0000

  /** Kotlin `Long`: 64-bit two's complement. */
  type Long = x: int | -0x8000_0000_0000_0000 <= x < 0x8000_0000_0000_0000

  /** Kotlin `Int`: 32-bit two's complement. */
  type Int32 = x: int | -0x8000_0000 <= x < 0x8000_0000

  /** Kotlin `UShort`: unsigned 16-bit. */
  type UShort = x: int | 0 <= x < 0x1_0000

  /**
   * `Int.toUShort()` keeps the low 16 bits of the two's complement
   * representation, which is the value modulo 2^16 (Dafny's `%` is
   * Euclidean, so a negative `x` lands in 0..65535 as Kotlin's does).
   */
  function ToUShort(x: Int32): (r: UShort)
    ensures 0 <= x < TWO_16 ==> r == x
    ensures -TWO_16 <= x < 0 ==> r == x + TWO_16
    ensures (x - r) % TWO_16 == 0
  {
    x % TWO_16
  }
}

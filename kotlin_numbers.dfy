/**
 * The fixed-width Kotlin integer types the protocol uses, and Kotlin's
 * `Double.roundToLong()`, by which the decoder turns a wire number into a Long.
 */
module KotlinNumbers {

  /** Kotlin `Short`. */
  type Int16 = x: int | -0x8000 <= x < 0x8000

  /** Kotlin `Int`. */
  type Int32 = x: int | -0x8000_0000 <= x < 0x8000_0000

  /** Kotlin `Long`. */
  type Int64 = x: int | LongMin <= x <= LongMax

  const LongMin: int := -0x8000_0000_0000_0000
  const LongMax: int := 0x7FFF_FFFF_FFFF_FFFF

  /**
   * `roundToLong` on Kotlin/JS: a value above or below the Long range
   * saturates at the range's end; any other value goes through `Math.round`,
   * which picks the nearest integer and breaks ties toward positive infinity.
   * (Wire numbers are doubles, modelled as reals: NaN cannot occur.)
   */
  function RoundToLong(x: real): Int64 {
    if x > LongMax as real then LongMax
    else if x < LongMin as real then LongMin
    else (x + 0.5).Floor
  }

  /** Inside the Long range the result is the integer nearest to `x`, a tie going up. */
  lemma RoundToLongNearest(x: real)
    requires LongMin as real <= x <= LongMax as real
    ensures x - 0.5 < RoundToLong(x) as real <= x + 0.5
  {
  }

  /** A whole number in the Long range comes back unchanged, so 5.0 gives 5 and 2^53 gives 2^53. */
  lemma RoundToLongExact(k: Int64)
    ensures RoundToLong(k as real) == k
  {
  }

  /** Ties go toward positive infinity (Math.round), not to the even neighbour. */
  lemma RoundToLongTies(k: int)
    requires LongMin <= k < LongMax
    ensures RoundToLong(k as real + 0.5) == k + 1
  {
  }

  /** Values beyond the Long range saturate instead of failing. */
  lemma RoundToLongSaturates(x: real)
    ensures x >= LongMax as real ==> RoundToLong(x) == LongMax
    ensures x <= LongMin as real ==> RoundToLong(x) == LongMin
  {
  }
}

/** The fixed-width Rust integers the receipt code passes around, and the two
    conversions it applies to them: the `as i32` cast of a `u32` and unary
    minus on an `i32`. */
module Ints {
  const TwoTo31: int := 0x8000_0000
  const TwoTo32: int := 0x1_0000_0000
  const I32Max: int := 0x7FFF_FFFF

  type u16 = x: int | 0 <= x < 0x1_0000
  type u32 = x: int | 0 <= x < 0x1_0000_0000
  type i32 = x: int | -0x8000_0000 <= x < 0x8000_0000

  /** `u as i32`: the same 32 bits read as a two's-complement number. */
  function AsI32(u: u32): (r: i32)
    ensures (r - u) % TwoTo32 == 0
    ensures u < TwoTo31 <==> r >= 0
  {
    if u < TwoTo31 then u else u - TwoTo32
  }

  /** `-x` on an `i32` as a release build computes it: the result wraps, so the
      one value without a positive counterpart, `i32::MIN`, is its own negation. */
  function WrappingNeg(x: i32): (r: i32)
    ensures (r + x) % TwoTo32 == 0
    ensures x != -TwoTo31 ==> r + x == 0
  {
    if x == -TwoTo31 then x else -x
  }

  /** Every value in `i32` range congruent to `u` modulo 2^32 is the result of
      the cast: the contract of AsI32 pins it down completely. */
  lemma AsI32Unique(u: u32, r: i32)
    requires (r - u) % TwoTo32 == 0
    ensures r == AsI32(u)
  {
  }
}

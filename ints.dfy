/** The fixed-width integer types that appear in the Rust records. */
module Ints {
  type u16 = x: int | 0 <= x < 0x1_0000
  type i32 = x: int | -0x8000_0000 <= x < 0x8000_0000
  type u64 = x: int | 0 <= x < 0x1_0000_0000_0000_0000

  const TwoTo63: nat := 0x8000_0000_0000_0000

  /** Rust's `x as u64` on an `i32`: sign extension, so a negative value wraps to 2^64 + x. */
  function I32AsU64(x: i32): (r: u64)
    ensures 0 <= x ==> r == x
    ensures x < 0 ==> r >= TwoTo63 && r - 0x1_0000_0000_0000_0000 == x
  {
    if x < 0 then 0x1_0000_0000_0000_0000 + x else x
  }
}

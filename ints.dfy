/** Machine integer ranges used by the records of the bot. */
module Ints {
  const I32_MIN: int := -0x8000_0000
  const I32_MAX: int := 0x7fff_ffff

  /** True when `v` fits a Rust `i32`. */
  predicate InI32(v: int)
  {
    I32_MIN <= v <= I32_MAX
  }

  /** Rust's `i32`. */
  type i32 = v: int | InI32(v)
}

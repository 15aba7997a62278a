/** Small vocabulary shared by the modules of the model. */
module Prelude {

  datatype Option<+T> = None | Some(value: T)

  /** Rust's `u32`; arithmetic outside the range does not verify. */
  newtype u32 = x: int | 0 <= x < 0x1_0000_0000

  const U32_MAX: u32 := 0xFFFF_FFFF

  function Max(a: int, b: int): int {
    if a < b then b else a
  }

  function Min(a: int, b: int): int {
    if a < b then a else b
  }
}

/**
 * Machine-level value types shared by the uSDHC model: the unsigned widths the
 * driver and the peripheral's register fields use, and the usual Option/Result.
 */
module Machine {

  /** Rust `u32`; arithmetic that leaves this range would be an overflow. */
  type u32 = x: int | 0 <= x < 0x1_0000_0000
  /** Rust `u16`, also the width of a relative card address. */
  type u16 = x: int | 0 <= x < 0x1_0000
  /** Register fields narrower than a word. */
  type u13 = x: int | 0 <= x < 0x2000
  type u8 = x: int | 0 <= x < 0x100
  type u4 = x: int | 0 <= x < 0x10
  type u3 = x: int | 0 <= x < 0x8
  /** A single register flag, read as the integer 0 or 1. */
  type bit = x: int | 0 <= x <= 1

  datatype Option<+T> = None | Some(value: T)

  datatype Result<+T, +E> = Ok(value: T) | Err(error: E)
}

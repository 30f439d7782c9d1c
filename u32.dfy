/** Unsigned 32-bit integers, as Rust's `u32`, and the stock Option wrapper. */
module U32 {

  /** The largest value of a Rust `u32` (`u32::MAX`). */
  const MAX: int := 0xFFFF_FFFF

  /** The values a Rust `u32` can hold. Arithmetic that would leave this range panics in
      a debug build; the model states that as a precondition where it can happen. */
  type u32 = x: int | 0 <= x <= MAX

  datatype Option<T> = None | Some(value: T)
}

/** Value types shared by both variants of the game: Rust's `Option` and
    `Result`, and the `u8` width of every counter. */
module Base {

  /** `std::option::Option`. */
  datatype Option<+T> = None | Some(value: T)

  /** `std::result::Result`; every error in this crate is a static string. */
  datatype Result<+T, +E> = Ok(value: T) | Err(error: E)

  /** Rust's `u8`. Arithmetic on it is unbounded `int`, so every `+= 1`
      carries the precondition under which the debug build does not panic. */
  type u8 = x: int | 0 <= x < 256

  const U8_MAX: u8 := 255
}

/** Rust primitive types shared by the keyboard decoder and the VGA text writer. */
module Base {

  /** An unsigned 8-bit integer (Rust `u8`): a raw scan code, an ASCII byte or a colour byte. */
  newtype u8 = x: int | 0 <= x < 256

  /** Rust's `Option<T>`. */
  datatype Option<+T> = None | Some(value: T)
}

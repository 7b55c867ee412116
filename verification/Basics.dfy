/** Bytes, and optional values. */
module Basics {
  newtype byte = x: int | 0 <= x < 256

  datatype Option<T> = None | Some(value: T)
}

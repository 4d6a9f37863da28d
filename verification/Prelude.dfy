/** Small shared vocabulary: optional values and results carrying an error. */
module Prelude {
  /** One octet of a source blob. */
  type Byte = b: int | 0 <= b < 256

  datatype Option<+T> = None | Some(value: T)

  datatype Result<+T, +E> = Ok(value: T) | Err(error: E)
}

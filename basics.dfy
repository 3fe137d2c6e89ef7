/** Small value types shared by the rest of the model. */
module Basics {

  /** An optional value, for lookups and partial decoders. */
  datatype Option<+T> = None | Some(value: T)

  /** A value or an error: the model's form of Go's `(value, error)` returns. */
  datatype Result<+T, +E> = Ok(value: T) | Err(error: E)

  /** One octet; Go's `byte`. */
  type byte = b: int | 0 <= b < 256

  type Bytes = seq<byte>
}

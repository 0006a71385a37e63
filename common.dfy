/** Small value types shared by the modules of the health-check model. */
module Common {

  /** An optional value: `None` plays the part of Go's nil pointer. */
  datatype Option<T> = None | Some(value: T)

  /** A Go byte; strings and JSON payloads are byte sequences. */
  newtype byte = x: int | 0 <= x < 256

  type Bytes = seq<byte>

  /** The outcome of an operation that may fail with an error whose text is `error`. */
  datatype Result<T> = Ok(value: T) | Err(error: Bytes)
}

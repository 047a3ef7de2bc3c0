/** Small value types shared by every module of the model. */
module Common {

  /** An optional value: JavaScript's `null`/`undefined` and Python's `None` become `None`. */
  datatype Option<+T> = None | Some(value: T)

  /** A value that is either a success or an error, for the source's rejected promises and thrown errors. */
  datatype Result<+T, +E> = Ok(value: T) | Err(error: E)

  /** One octet, as held by a Node.js `Buffer` or a `Uint8Array`. */
  newtype byte = x: int | 0 <= x < 256
}

/** Small value types shared by the rest of the model. */
module Basics {

  /** Python's `None` or a present value. */
  datatype Option<T> = None | Some(value: T)

  /** One byte of an HTTP body or of a file. */
  newtype byte = b: int | 0 <= b < 256

  type Bytes = seq<byte>
}

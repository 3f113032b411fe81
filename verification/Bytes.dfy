/** Bytes, and the optional values that stand for unset fields and for columns that are NULL. */
module Bytes {
  newtype byte = x: int | 0 <= x < 256

  type Data = seq<byte>

  datatype Option<+T> = None | Some(value: T)
}

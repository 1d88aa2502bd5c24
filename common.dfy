/** Small value types shared by every module of the model. */
module Common {

  /** Go's "value or nothing": a nil pointer, an absent map entry, a missing result. */
  datatype Option<+T> = None | Some(value: T)

  /** One byte of a file read from disk (Go's `byte`). */
  newtype byte = x: int | 0 <= x < 256
}

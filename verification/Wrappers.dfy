/** The types every other module shares. */
module Wrappers {
  /** A nullable or missing value. */
  datatype Option<+T> = None | Some(value: T)

  type Byte = x: int | 0 <= x < 256
}

/** Small vocabulary shared by every module of the model. */
module Basics {

  /** An octet as the C code sees a `uint8_t`. */
  type byte = bv8

  /** A value that may be absent. */
  datatype Option<+T> = None | Some(value: T)
}

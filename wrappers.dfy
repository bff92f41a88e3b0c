/** The optional value used wherever the C code uses NULL or a 0 character. */
module Wrappers {
  datatype Option<+T> = None | Some(value: T)
}

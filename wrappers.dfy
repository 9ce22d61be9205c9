/** The optional value used wherever the source uses `None` for "no value". */
module Wrappers {
  datatype Option<+T> = None | Some(value: T)
}

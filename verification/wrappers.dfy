/** The optional value used wherever the source has `None` / `null`. */
module Wrappers {
  datatype Option<+T> = None | Some(value: T)
}

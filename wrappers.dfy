/** The optional value used wherever the source returns `null` or leaves a lookup empty. */
module Wrappers {
  datatype Option<+T> = None | Some(value: T)
}

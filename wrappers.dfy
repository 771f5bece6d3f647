/** The optional value used for operations that can fail (in the source: an `unwrap` that panics). */
module Wrappers {
  datatype Option<+T> = None | Some(value: T)
}

/** An optional value: None for "no result", Some for a result. */
module Wrappers {
  datatype Option<+T> = None | Some(value: T)
}

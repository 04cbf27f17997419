/** An optional value, for slots that may be empty. */
module Wrappers {
  datatype Option<+T> = None | Some(value: T)
}

/** An optional value, used for results that may be absent or may fail. */
module Wrappers {
  datatype Option<+T> = None | Some(value: T)
}

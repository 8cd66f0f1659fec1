/** The Option datatype used wherever the application looks for something that may be absent. */
module Wrappers {
  datatype Option<+T> = None | Some(value: T)
}

/** The optional value used where the widget holds a nullable reference or an optional message. */
module Wrappers {
  datatype Option<+T> = None | Some(value: T)
}

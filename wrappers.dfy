/** The optional-value type used where the source returns None or a missing row. */
module Wrappers {

  datatype Option<+T> = None | Some(value: T)
}

/** The optional value used for the source's `null` results and nullable handles. */
module Wrappers {
  datatype Option<+T> = None | Some(value: T)
}

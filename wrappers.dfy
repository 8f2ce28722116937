/** The optional-value datatype used for values the source may leave undefined. */
module Wrappers {

  datatype Option<+T> = None | Some(value: T)
}

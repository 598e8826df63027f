/** The optional-value datatype used for results that may be absent (a parse that fails). */
module Wrappers {

  datatype Option<+T> = None | Some(value: T)
}

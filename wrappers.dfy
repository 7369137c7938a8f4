/** The optional-value datatype used for "no output" results. */
module Wrappers {

  datatype Option<+T> = None | Some(value: T)
}

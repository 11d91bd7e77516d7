/** The optional-value datatype used for the error result of a validator. */
module Wrappers {

  datatype Option<+T> = None | Some(value: T)
}

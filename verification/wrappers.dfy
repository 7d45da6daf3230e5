/** A minimal optional-value datatype for partial functions of the model. */
module Wrappers {

  datatype Option<+T> = None | Some(value: T)
}

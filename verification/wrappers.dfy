/** The optional-value datatype used throughout the model, standing in for
    JavaScript's `undefined` fields. */
module Wrappers {

  datatype Option<+T> = None | Some(value: T)
}

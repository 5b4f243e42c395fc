/** The optional-value wrapper used throughout the model for JavaScript's `null`. */
module Wrappers {

  datatype Option<+T> = None | Some(value: T)
}

/** The optional value used for PHP's NULL throughout the model. */
module Wrappers {

  datatype Option<+T> = None | Some(value: T)
}

/** The optional value used throughout the model: JavaScript's null/undefined
    results, a missing lookup, or NaN where a number is expected. */
module Wrappers {

  datatype Option<+T> = None | Some(value: T)
}

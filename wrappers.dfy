/** The optional value used throughout the model for JavaScript's
    `undefined` / `null` results and for absent message fields. */
module Wrappers {

  datatype Option<+T> = None | Some(value: T)
}

/** The optional-value datatype used throughout the model for JavaScript's
    `undefined`/`null` results (a missing map entry, an unresolved link). */
module Wrappers {

  datatype Option<+T> = None | Some(value: T)
}

/** The optional value used throughout the model: `None` stands for JavaScript's
    `undefined` (a missing cell or field) and for `NaN` results. */
module Wrappers {
  datatype Option<+T> = None | Some(value: T)
}

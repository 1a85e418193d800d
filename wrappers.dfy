/** The optional value used throughout the model: JavaScript's `null`, `undefined`,
    an unparsable date (a `Date` whose time is NaN) and a missing record all become `None`. */
module Wrappers {

  datatype Option<+T> = None | Some(value: T)
}

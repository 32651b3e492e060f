/** The optional-value type used where JavaScript code yields `undefined` or `null`. */
module Wrappers {

  datatype Option<+T> = None | Some(value: T)
}

/** The optional value used for Go's nil-or-value results (an `error`, a found index). */
module Wrappers {

  datatype Option<+T> = None | Some(value: T)

}

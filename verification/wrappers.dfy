/** The absent-or-present value used for the parser's `null` results. */
module Wrappers {

  datatype Option<+T> = None | Some(value: T)
}

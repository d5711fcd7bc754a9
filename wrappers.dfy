/** The optional value used wherever the source returns `undefined` or `null` for "nothing". */
module Wrappers {
  datatype Option<+T> = None | Some(value: T)
}

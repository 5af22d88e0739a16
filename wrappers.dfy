/** The optional value Python writes as `None` or a value. */
module Wrappers {

  datatype Option<+T> = None | Some(value: T)
}

/** The optional value used for attribute reads that may come back absent. */
module Wrappers {

  datatype Option<+T> = None | Some(value: T)
}

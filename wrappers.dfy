/** The optional value used for page texts, callbacks and parse results. */
module Wrappers {

  datatype Option<+T> = None | Some(value: T)
}

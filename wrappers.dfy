/** The optional value used for Tk timer handles and parse results. */
module Wrappers {
  datatype Option<+T> = None | Some(value: T)
}

/** The optional value used for "no active annotation" and "no pending timer". */
module Wrappers {

  datatype Option<+T> = None | Some(value: T)
}

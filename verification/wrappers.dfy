/** The optional value used where the compiler works with a possibly-null reference. */
module Wrappers {

  datatype Option<+T> = None | Some(value: T)

}

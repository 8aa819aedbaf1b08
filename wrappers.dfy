/** The optional value used where the CLI returns a nil pointer or a nil error. */
module Wrappers {

  datatype Option<+T> = None | Some(value: T)

}

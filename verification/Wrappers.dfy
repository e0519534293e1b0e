/** The usual optional value, standing for the `| null` and `| undefined` of the program. */
module Wrappers {
  datatype Option<+T> = None | Some(value: T)
}

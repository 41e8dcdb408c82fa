/** The optional value that nullable columns and `findUnique` results become. */
module Wrappers {
  datatype Option<+T> = None | Some(value: T)
}

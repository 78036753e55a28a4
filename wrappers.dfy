/** A plain optional value: the result of reading a command-line value as a number. */
module Wrappers {

  /** The outcome of trying to read a command-line value as a number. */
  datatype Option<+T> = None | Some(value: T)
}

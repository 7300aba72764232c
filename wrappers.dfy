/** The NULL-or-value results of the shell's C functions. */
module Wrappers {
  datatype Option<+T> = None | Some(value: T)
}

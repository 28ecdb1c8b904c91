/** The optional value used for the shell's nullable pointers (file names,
    the parser's NULL result, an unset `HOME`). */
module Wrappers {

  datatype Option<+T> = None | Some(value: T)
}

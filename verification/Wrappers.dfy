/** Small result types shared by the other modules. */
module Wrappers {

  /** A value that may be absent; stands for the program's null pointers. */
  datatype Option<+T> = None | Some(value: T)
}

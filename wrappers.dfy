/** Option type shared by the modules of the task tracker model. */
module Wrappers {
  datatype Option<+T> = None | Some(value: T)
}

/** Option, used where the source stops on a failed assert(): None stands for the failure. */
module Wrappers {

  datatype Option<+T> = None | Some(value: T)
}

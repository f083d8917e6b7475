/** The option type shared by the models; it stands for the source's `undefined`. */
module Wrappers {
  datatype Option<+T> = None | Some(value: T)
}

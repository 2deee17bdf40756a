/** Option type shared by every module of the model (a null / missing value). */
module Wrappers {
  datatype Option<+T> = None | Some(value: T)
}

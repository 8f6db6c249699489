/** The Option type used where the source may produce `undefined` or an empty field. */
module Wrappers {
  datatype Option<+T> = None | Some(value: T)
}

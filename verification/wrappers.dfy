/** The Option type used where the program passes `null` or a value. */
module Wrappers {

  datatype Option<+T> = None | Some(value: T)
}

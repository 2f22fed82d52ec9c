/** The Option type used for absent values: an unset language, a chat without a
    session, an untouched session map. */
module Wrappers {

  datatype Option<+T> = None | Some(value: T)
}

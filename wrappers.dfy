/** Option values, used for the "NaN or a number" result of number parsing
    and for the optional fields of the source's plain JavaScript objects. */
module Wrappers {
  datatype Option<+T> = None | Some(value: T)
}

/** Optional values and success-or-error results, used where the program
    either has no value (an absent optional field) or throws. */
module Wrappers {

  datatype Option<+T> = None | Some(value: T)

  datatype Result<+T, +E> = Ok(value: T) | Err(error: E)
}

/** Optional values and success-or-error results, as used by the models of
    Go's `strconv` and `sqlschema` packages. */
module Wrappers {

  datatype Option<+T> = None | Some(value: T)

  datatype Result<+R, +E> = Ok(value: R) | Error(error: E)
}

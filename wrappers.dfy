/** Optional values and success-or-error results, used for the recognisers' captures and for
    the parse errors that the source raises as exceptions. */
module Wrappers {

  datatype Option<+T> = None | Some(value: T)

  datatype Result<+R, +E> = Ok(value: R) | Err(error: E)
}

/** Optional values, results and pass/fail outcomes, used wherever the JavaScript source yields
    `undefined`, throws, or rejects a promise. */
module Wrappers {

  datatype Option<+T> = None | Some(value: T)

  datatype Result<+T, +E> = Ok(value: T) | Err(error: E)

  datatype Outcome<+E> = Pass | Fail(error: E)
}

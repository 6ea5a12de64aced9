/** Optional values and tagged results, used for JavaScript's `null`/`undefined`
    and for the error replies of the extension's commands. */
module Wrappers {

  datatype Option<+T> = None | Some(value: T)

  datatype Result<+T> = Success(value: T) | Failure(error: string)
}

/** Optional values and results with a string error, standing for Python's
    `None` and for exceptions raised by a collaborator. */
module Wrappers {

  datatype Option<+T> = None | Some(value: T)

  datatype Result<+T> = Ok(value: T) | Err(error: string)
}

/** Optional values, and the Python error that the modelled arithmetic can raise (a division by zero). */
module Outcomes {

  datatype Option<+T> = None | Some(value: T)

  /** Errors the extensions raise themselves (not those of their collaborators). */
  datatype Error = ZeroDivisionError

  datatype Result<+T> = Ok(value: T) | Err(error: Error)
}

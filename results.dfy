/** Failure-carrying results: a Python exception becomes an `Err` naming it. */
module Results {

  datatype Option<+T> = None | Some(value: T)

  datatype Result<+T> = Ok(value: T) | Err(error: string)
}

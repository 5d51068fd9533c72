/** Optional values and results with an error, standing in for the Java
    exceptions that the modelled code lets escape. */
module Results {

  datatype Option<+T> = None | Some(value: T)

  datatype Result<+T, +E> = Ok(value: T) | Err(error: E)
}

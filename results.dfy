/** Optional values and error-or-value results. Errors in these services are
    human-readable messages, so the error side is a string. */
module Results {

  datatype Option<T> = None | Some(value: T)

  datatype Result<T> = Ok(value: T) | Err(message: string)
}

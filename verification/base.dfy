/** Shared value types: optional values (JavaScript `null`/`undefined`) and the
    outcome of a remote call (`{ data, error }` of the backend client). */
module Base {

  /** A value that may be absent: `null` or `undefined` in the source. */
  datatype Option<T> = None | Some(value: T)

  /** The outcome of a remote call: its data, or the error it reported. */
  datatype Result<T> = Ok(value: T) | Err(message: string)
}

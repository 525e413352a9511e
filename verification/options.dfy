/** Optional values and validation outcomes shared by the admin screens. */
module Options {

  /** A value that may be absent: the `T | null` state fields of the components. */
  datatype Option<+T> = None | Some(value: T)

  /** The outcome of a validation step: a value, or the message shown to the user. */
  datatype Result<+T> = Ok(value: T) | Err(message: string)
}

/** Failure-carrying wrappers shared by every module of the model. */
module Common {

  /** A value that may be absent (Python's `None`). */
  datatype Option<T> = None | Some(value: T) {
    function GetOr(default: T): T {
      if Some? then value else default
    }
  }

  /** Either a value or the error an operation raised. */
  datatype Result<T, E> = Ok(value: T) | Err(error: E)

  /** A chat message `{"role": ..., "content": ...}`. */
  datatype Message = Message(role: string, content: string)
}

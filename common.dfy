/** Values shared by every module of the model. */
module Common {

  /** A value that may be absent: JavaScript's `null`/`undefined` next to a value. */
  datatype Option<+T> = None | Some(value: T)

  /** How a call ends: it returns normally, or it throws `error`. */
  datatype Outcome<+E> = Pass | Fail(error: E)
}

/** A value that may be absent: the model of JavaScript's `null`/`undefined`. */
module Base {
  datatype Option<T> = None | Some(value: T)
}

/** An absent or present value: Python's `None` or an object. */
module Optional {
  datatype Option<T> = None | Some(value: T)
}

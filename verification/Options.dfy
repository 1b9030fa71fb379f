/** A value that may be absent: a NULL in C, a failed allocation, an unset field. */
module Options {
  datatype Option<T> = None | Some(value: T)
}

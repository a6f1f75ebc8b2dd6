module Options {
  /** A value that may be missing: the source's nil. */
  datatype Option<T> = None | Some(value: T)
}

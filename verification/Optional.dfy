/** An optional value: Go's zero time, a missing token, a parse error. */
module Optional {
  datatype Option<T> = None | Some(value: T)
}

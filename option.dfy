/** Java's nullable references, where "no value" is a checked case. */
module Optional {
  datatype Option<T> = None | Some(value: T)
}

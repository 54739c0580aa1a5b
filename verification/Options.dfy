/** An optional value: Python's None, Java's null. */
module Options {
  datatype Option<+T> = None | Some(value: T)
}

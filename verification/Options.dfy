/** An optional value, for what the witness may or may not hold. */
module Options {
  datatype Option<+T> = None | Some(value: T)
}

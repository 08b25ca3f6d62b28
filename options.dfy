/** Python's optional values: a field that holds either `None` or a value. */
module Options {

  datatype Option<+T> = None | Some(value: T)
}

/** The optional value that stands for Python's `None` in the models. */
module Options {
  datatype Option<+T> = None | Some(value: T)
}

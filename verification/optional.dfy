/** The optional value the add-in expresses with Python's `None`. */
module Optional {
  datatype Option<T> = None | Some(value: T)
}

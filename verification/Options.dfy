/** The optional value, shared by the listing and download models. */
module Options {
  datatype Option<T> = None | Some(value: T)
}

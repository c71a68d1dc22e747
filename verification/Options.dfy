/** The optional value used for Go's nil pointers and for lookups that may find nothing. */
module Options {
  datatype Option<+T> = None | Some(value: T)
}

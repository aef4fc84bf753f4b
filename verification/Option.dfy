/** Shared value wrapper: an optional field of the program's records. */
module Option {
  datatype Option<+T> = None | Some(value: T)
}

/** A value that may be absent: an unset request field, an empty session slot. */
module Options {
  datatype Option<+T> = None | Some(value: T)
}

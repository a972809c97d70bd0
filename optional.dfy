/** A value that may be absent: stands for a pointer that may be null. */
module Optional {
  datatype Option<+T> = None | Some(value: T)
}

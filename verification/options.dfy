/** A value that may be absent: nil in Ruby, NULL in C. */
module Options {
  datatype Option<+T> = None | Some(value: T)
}

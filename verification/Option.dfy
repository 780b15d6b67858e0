/** The value-or-NULL results of the C runtime. */
module Options {
  datatype Option<+T> = None | Some(value: T)
}

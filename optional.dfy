/** An optional value, used for the source's `None`-able fields and results. */
module Optional {
  datatype Option<+T> = None | Some(value: T)
}

/** The comma-ok returns and nil pointers of the source. */
module Options {
  datatype Option<+T> = None | Some(value: T)
}

/** The absent-or-present value used for parsed amounts and parse results. */
module Options {
  datatype Option<+T> = None | Some(value: T)
}

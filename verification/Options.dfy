/** The absent-or-present value the source writes as `Option<T>`. */
module Options {
  datatype Option<+T> = None | Some(value: T)
}

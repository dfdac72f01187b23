// The optional value used where the analysis may have nothing to report.
module Options {
  datatype Option<T> = None | Some(value: T)
}

/** The optional value both components use for "may be absent". */
module Options {
  datatype Option<T> = None | Some(value: T)
}

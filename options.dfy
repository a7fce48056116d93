/** The optional value used wherever the source returns `null`/`None` or leaves a field unset. */
module Options {
  datatype Option<+T> = None | Some(value: T)
}

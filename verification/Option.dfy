/** An optional value: the source's nil, missing map entry or empty result. */
module Options {
  datatype Option<+T> = None | Some(value: T)
}

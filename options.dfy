/** An optional value: the model's stand-in for `undefined`/`null` and for optional fields. */
module Options {
  datatype Option<+T> = None | Some(value: T)
}

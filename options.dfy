/** A value that may be absent: JavaScript's `undefined` / `null` and a `find` that matches nothing. */
module Options {
  datatype Option<+T> = None | Some(value: T)
}

/** A value that may be absent: stands for JavaScript's `undefined`/`NaN`
    and for a Python exception that aborts a computation. */
module Optional {
  datatype Option<+T> = None | Some(value: T)
}

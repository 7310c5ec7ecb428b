/** Small shared datatypes. */
module Common {

  /** A value that may be missing: a JavaScript property that is `undefined`,
      a `parseInt` that yields `NaN`, a setting that is `null`. */
  datatype Option<+T> = None | Some(value: T)
}

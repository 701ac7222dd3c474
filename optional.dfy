/** The usual Some/None wrapper, used for JavaScript values that may be
    `undefined` or `null` (a missing header, a missing storage key, ...). */
module Optional {

  datatype Option<+T> = None | Some(value: T)
}

/** The optional value the screens pass around: a check's first failure,
    or the account held in the storage slot. */
module Options {
  datatype Option<+T> = None | Some(value: T)
}

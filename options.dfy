/** The absent-or-present value used where the source returns `undefined`, `null` or an index from `find`. */
module Options {

  datatype Option<+T> = None | Some(value: T)

}

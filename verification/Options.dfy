/** Values the source leaves nil, and ids. */
module Options {

  datatype Option<+T> = None | Some(value: T)

  /** Ids are opaque; NO_ID stands for the source's empty id. */
  type Id = nat

  const NO_ID: Id := 0
}

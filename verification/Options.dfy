/** The usual optional value and a count of conditions, shared by every other module. */
module Options {
  datatype Option<+T> = None | Some(value: T)

  /** A condition as a count. */
  function One(b: bool): nat {
    if b then 1 else 0
  }
}

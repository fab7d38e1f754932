/** What several machines speak of. */
module Common {
  /** The identity of a connection object. */
  type ConnId = nat

  datatype Option<T> = None | Some(value: T)
}

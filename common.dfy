/** Shared vocabulary: optional values, results, and the opaque identifiers
    that the persistence and authentication layers hand to the handlers. */
module Common {

  datatype Option<T> = None | Some(value: T)

  datatype Result<T, E> = Ok(value: T) | Err(error: E)

  /** The acting principal, as supplied by the authentication middleware. */
  type UserId = nat

  /** A point in time in milliseconds, as JavaScript `Date` values carry it. */
  type Timestamp = int
}

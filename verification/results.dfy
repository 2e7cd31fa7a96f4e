/** Failure-carrying values shared by the whole model. */
module Results {

  /** Absent or present: a coordinate cell holding `NaN`, a session-state entry that was
      never assigned, a chart function that returned `None`. */
  datatype Option<T> = None | Some(value: T)

  /** The entry itself when present, and `fallback` in its place otherwise. */
  function ValueOr<T>(o: Option<T>, fallback: T): T {
    if o.Some? then o.value else fallback
  }

  /** A computed value, or the exception the script raises in its place. */
  datatype Result<T, E> = Ok(value: T) | Err(error: E)
}

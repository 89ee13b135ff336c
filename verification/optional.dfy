/** Swift optionals: a missing string, a missing dictionary entry. */
module Optional {

  datatype Option<T> = None | Some(value: T)

  /** Swift's `o ?? fallback`. */
  function ValueOr<T>(o: Option<T>, fallback: T): T
  {
    if o.Some? then o.value else fallback
  }
}

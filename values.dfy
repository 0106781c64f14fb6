/** Python values the authentication core passes around: optional values
    (`X | None`) and Python's truthiness test on an optional string. */
module PyValues {

  /** `X | None`. */
  datatype Option<+T> = None | Some(value: T)

  /** `if s:` on a `str | None`: false for `None` and for the empty string. */
  predicate Truthy(s: Option<string>)
  {
    s.Some? && s.value != ""
  }
}

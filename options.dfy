/** Optional values and the two JavaScript idioms on optional strings that
    the model needs: truthiness and `s || fallback`. `None` stands for a
    missing entry, a missing field, or `undefined`/`null`. */
module Options {

  datatype Option<+T> = None | Some(value: T)

  /** JavaScript truthiness of an optional string: only a present,
      non-empty string is truthy. */
  predicate Filled(s: Option<string>) {
    s.Some? && s.value != ""
  }

  /** `s || null`. */
  function OrNull(s: Option<string>): (r: Option<string>) {
    if Filled(s) then s else None
  }
}

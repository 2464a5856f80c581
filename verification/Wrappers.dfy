/** Optional values: the source's nil pointers and "not found" storage results. */
module Wrappers {

  datatype Option<+T> = None | Some(value: T)

  /** The first of two optional values that is present. */
  function FirstOf<T>(first: Option<T>, second: Option<T>): Option<T> {
    if first.Some? then first else second
  }

  /** The value held, or the given default. */
  function GetOr<T>(o: Option<T>, default: T): T {
    if o.Some? then o.value else default
  }
}

/** A value that may be missing. */
module Options {

  datatype Option<+T> = None | Some(value: T)

  /** At most one element. */
  function Opt<T>(o: Option<T>): seq<T> {
    if o.Some? then [o.value] else []
  }
}

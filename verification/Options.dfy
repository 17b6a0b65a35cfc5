/** A value that may be absent: the source's null, undefined and missing map entries. */
module Options {
  datatype Option<+T> = None | Some(value: T)

  function GetOr<T>(o: Option<T>, d: T): T { if o.Some? then o.value else d }
}

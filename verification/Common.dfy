/** Values that several packages share. */
module Common {

  datatype Option<T> = None | Some(value: T)

  /** Go's zero time, on the scale of integer nanoseconds. */
  const ZERO_TIME: int := 0

  /** The name under which audit events show a missing identity. */
  function OrUnidentified(s: string): string {
    if s == "" then "unidentified" else s
  }
}

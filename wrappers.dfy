/** The JavaScript value shapes that the client's records are built from. */
module Wrappers {

  /** An optional property: `None` is a key that is absent (or `undefined`). */
  datatype Option<+T> = None | Some(value: T) {

    /** The value, or `default` when absent (JavaScript's `x ?? default`). */
    function GetOr(default: T): T {
      match this
      case Some(v) => v
      case None => default
    }
  }

  /** A property typed `T | null`: `null` is a value distinct from an absent key. */
  datatype Nullable<+T> = Null | NonNull(value: T)

  /** A JavaScript number. The client carries numbers (ports, coordinates, sizes)
      as data and never computes with them. */
  type Number = real
}

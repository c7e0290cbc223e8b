/** Small value types shared by the whole model: an optional value, a result
    that may carry an exception, a point in model space and a GUID. */
module Common {

  /** A value that may be absent: C#'s `null` reference. */
  datatype Option<T> = None | Some(value: T)

  /** The outcome of a host call that either returns a value or throws. */
  datatype Result<T> = Ok(value: T) | Throws

  /** A point (or vector) with real coordinates, as sent by the client. */
  datatype Point = Point(x: real, y: real, z: real)

  /** A GUID. Only its text form (`Guid.ToString()`) matters to the core. */
  datatype Guid = Guid(text: string)

  /** Absolute value of a real, the `Math.Abs` of the level search. */
  function Abs(r: real): (a: real)
    ensures a >= 0.0
    ensures a == r || a == -r
  {
    if r < 0.0 then -r else r
  }
}

/** Shared vocabulary of the backend model: optional values, the outcome of an
    HTTP handler (a value or an HTTP error with its status and detail text),
    and the time unit used throughout. */
module Common {

  datatype Option<+T> = None | Some(value: T)

  /** An HTTP error as the handlers raise it: a status code and a detail text. */
  datatype HttpError = HttpError(status: int, detail: string)

  /** The outcome of a handler: a response value, or an HTTP error. */
  datatype Result<+T> = Ok(value: T) | Err(error: HttpError)

  /** Instants are counted in milliseconds, the resolution of the store's dates. */
  type Time = int

  const MillisPerSecond: int := 1000
  const MillisPerMinute: int := 60 * MillisPerSecond
  const MillisPerHour: int := 60 * MillisPerMinute
  const MillisPerDay: int := 24 * MillisPerHour

  function Min(a: int, b: int): (m: int)
    ensures m <= a && m <= b && (m == a || m == b)
  {
    if a <= b then a else b
  }
}

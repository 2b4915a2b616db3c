/** Shared value types: optional values, JSON error bodies, and the outcome of a
    network call before and after an error handler has turned it into a message. */
module Common {

  datatype Option<T> = None | Some(value: T)

  /** A JSON value as the browser hands it over; object properties are kept
      in the order `Object.values` reports them, which is insertion order
      except that integer-like keys come first, in ascending order: `props`
      holds them already in that order. */
  datatype Json =
    | Null
    | Bool(b: bool)
    | Num(n: real)
    | Str(s: string)
    | Arr(items: seq<Json>)
    | Obj(props: seq<(string, Json)>)

  /** An `HttpErrorResponse`: the numeric status, the transport message and the
      parsed body (`Null` when the server sent none). */
  datatype HttpError = HttpError(status: nat, message: string, body: Json)

  /** What a network call delivers to its subscriber: the success payload or the
      raw error. */
  datatype Outcome<T> = Success(value: T) | Failure(error: HttpError)

  /** What a call delivers after `catchError(handleError)`: the payload, or an
      `Error` whose message is the derived text. */
  datatype Reply<T> = Ok(value: T) | Err(message: string)

  /** The result of a confirmation dialog: the value passed to `close`, or
      nothing when it was dismissed. */
  datatype DialogResult = Closed(value: bool) | Dismissed

  /** `result === true` */
  predicate Confirmed(d: DialogResult) {
    d == Closed(true)
  }
}

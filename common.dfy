/** Small shared vocabulary: optional values and the outcome of an HTTP handler. */
module Common {

  /** Python's `Optional[T]`: `None` or a value. */
  datatype Option<T> = None | Some(value: T) {
    function GetOr(default: T): T {
      match this
      case Some(v) => v
      case None => default
    }
  }

  /** What a route handler produces: a value, or an `HTTPException` with its status code. */
  datatype Response<T> = Ok(value: T) | HttpError(status: int)

  const BadRequest := 400
  const NotFound := 404
  const Unprocessable := 422
  const InternalServerError := 500
  const ServiceUnavailable := 503

  /** No element occurs twice. */
  ghost predicate Distinct<T>(s: seq<T>) {
    forall i, j :: 0 <= i < j < |s| ==> s[i] != s[j]
  }
}

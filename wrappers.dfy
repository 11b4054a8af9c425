/** Option for values JavaScript leaves `undefined` or `null`, and a
    Result for route handlers that answer with an HTTP error instead. */
module Wrappers {

  datatype Option<+T> = None | Some(value: T) {
    function GetOr(default: T): T {
      match this
      case Some(v) => v
      case None => default
    }
  }

  /** The HTTP error answers the routes produce. */
  datatype HttpError =
    | BadRequest(message: string)   // 400
    | NotFound(message: string)     // 404
    | ServerError                   // 500: a thrown exception, e.g. a failed schema validation

  datatype Result<+T> = Ok(value: T) | Err(error: HttpError)
}

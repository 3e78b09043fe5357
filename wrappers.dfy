/** Optional values and handler outcomes shared by the whole model. */
module Wrappers {

  /** A value that may be absent (a JSON field that was not sent). */
  datatype Option<+T> = None | Some(value: T) {
    function GetOr(default: T): T {
      match this
      case Some(v) => v
      case None => default
    }
  }

  /** The client-visible failures of the handlers, one per HTTP status they send. */
  datatype HttpError = BadRequest | Unauthorized | Forbidden | NotFound {
    function Code(): nat {
      match this
      case BadRequest => 400
      case Unauthorized => 401
      case Forbidden => 403
      case NotFound => 404
    }
  }

  /** What a handler answers: the JSON payload, or an error status. */
  datatype Outcome<+T> = Ok(value: T) | Err(error: HttpError)
}

/** The JSON responses of the API routes: a body with 200 or 201, or an error status. */
module Http {

  /** The error branches of the routes, with the status code each answers. */
  datatype HttpError = BadRequest | Unauthorized | NotFound | InternalError {
    function Code(): nat {
      match this
      case BadRequest => 400
      case Unauthorized => 401
      case NotFound => 404
      case InternalError => 500
    }
  }

  datatype Response<T> = Ok(body: T) | Created(body: T) | Err(error: HttpError) {
    function Status(): nat {
      match this
      case Ok(_) => 200
      case Created(_) => 201
      case Err(e) => e.Code()
    }
  }
}

/** Failure-compatible wrappers shared by every module of the model. */
module Wrappers {

  datatype Option<+T> = None | Some(value: T)

  /** The outcome of a route handler: a JSON body sent with status 200, or an
      error status (401, 403, 404, 400 or 500) with an error message. */
  datatype Response<+T> = Ok(body: T) | Err(status: int)

  const BadRequest: int := 400
  const Unauthorized: int := 401
  const Forbidden: int := 403
  const NotFound: int := 404
  const ServerError: int := 500
}

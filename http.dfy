/** The HTTP status codes the server answers with (the values of `axum::http::StatusCode`). */
module Http {

  const OK: nat := 200
  const CREATED: nat := 201
  const NO_CONTENT: nat := 204
  const BAD_REQUEST: nat := 400
  const UNAUTHORIZED: nat := 401
  const FORBIDDEN: nat := 403
  const NOT_FOUND: nat := 404
  const CONFLICT: nat := 409
  const INTERNAL_SERVER_ERROR: nat := 500
}

/**
 * Helpers shared by the handlers: turning a DELETE's affected-row count into
 * a response, the 201 response, and the password hashing wrappers. bcrypt
 * itself is a parameter: a `Hasher` returns `None` when the hashing engine
 * fails, a `Verifier` returns `None` when it cannot check (a malformed hash).
 */
module Utils {
  import opened Basics
  import opened Errors
  import Http

  type Hasher = string -> Option<string>
  type Verifier = (string, string) -> Option<bool>

  /** `check_delete_result` */
  function CheckDeleteResult(rowsAffected: nat, resourceName: string): (r: Result<nat, AppError>)
    ensures r.Ok? <==> rowsAffected > 0
    ensures r.Ok? ==> r.value == Http.NO_CONTENT
    ensures r.Err? ==> r.error == NotFound(resourceName + " not found") && StatusCode(r.error) == Http.NOT_FOUND
  {
    if rowsAffected > 0 then Ok(Http.NO_CONTENT)
    else Err(NotFound(resourceName + " not found"))
  }

  /** `created_response`: status 201 with the data as it was given. */
  function CreatedResponse<T>(data: T): (r: (nat, T))
    ensures r.0 == Http.CREATED && r.1 == data
  {
    (Http.CREATED, data)
  }

  /** `hash_password`: an engine failure is a `PasswordHash` error. */
  function HashPassword(hash: Hasher, password: string): (r: Result<string, AppError>)
    ensures r.Ok? <==> hash(password).Some?
    ensures r.Ok? ==> r.value == hash(password).value
    ensures r.Err? ==> r.error == PasswordHash && StatusCode(r.error) == Http.INTERNAL_SERVER_ERROR
  {
    match hash(password)
    case Some(digest) => Ok(digest)
    case None => Err(PasswordHash)
  }

  /** `verify_password`: a mismatch is `Ok(false)`; only an engine failure is an error. */
  function VerifyPassword(verify: Verifier, password: string, digest: string): (r: Result<bool, AppError>)
    ensures verify(password, digest) == Some(false) ==> r == Ok(false)
    ensures verify(password, digest) == Some(true) ==> r == Ok(true)
    ensures verify(password, digest).None? ==> r == Err(PasswordHash)
  {
    match verify(password, digest)
    case Some(matches) => Ok(matches)
    case None => Err(PasswordHash)
  }
}

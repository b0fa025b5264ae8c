/**
 * The server's error taxonomy (`AppError`), the HTTP status each variant
 * answers with, the client-facing message, and the JSON error body.
 */
module Errors {
  import Http

  /** The `sqlx::Error`s the handlers distinguish. */
  datatype DbError =
    | RowNotFound
    | UniqueViolation(detail: string)
    | OtherDb(detail: string)

  datatype AppError =
    | Database(cause: DbError)
    | Validation(text: string)
    | Authentication(message: string)
    | Authorization(message: string)
    | NotFound(message: string)
    | Conflict(message: string)
    | Internal(message: string)
    | PasswordHash
    | Jwt(detail: string)
    | TaskJoin(detail: string)

  /** Failures that are the server's fault and are reported as 500. */
  predicate IsServerFault(e: AppError) {
    e.Internal? || e.PasswordHash? || e.TaskJoin? || (e.Database? && !e.cause.RowNotFound?)
  }

  /** `AppError::status_code` */
  function StatusCode(e: AppError): (s: nat)
    ensures s == Http.BAD_REQUEST <==> e.Validation?
    ensures s == Http.UNAUTHORIZED <==> e.Authentication? || e.Jwt?
    ensures s == Http.FORBIDDEN <==> e.Authorization?
    ensures s == Http.NOT_FOUND <==> e.NotFound? || e == Database(RowNotFound)
    ensures s == Http.CONFLICT <==> e.Conflict?
    ensures s == Http.INTERNAL_SERVER_ERROR <==> IsServerFault(e)
  {
    match e
    case Database(RowNotFound) => Http.NOT_FOUND
    case Database(_) => Http.INTERNAL_SERVER_ERROR
    case Validation(_) => Http.BAD_REQUEST
    case Authentication(_) => Http.UNAUTHORIZED
    case Authorization(_) => Http.FORBIDDEN
    case NotFound(_) => Http.NOT_FOUND
    case Conflict(_) => Http.CONFLICT
    case Internal(_) => Http.INTERNAL_SERVER_ERROR
    case PasswordHash => Http.INTERNAL_SERVER_ERROR
    case Jwt(_) => Http.UNAUTHORIZED
    case TaskJoin(_) => Http.INTERNAL_SERVER_ERROR
  }

  /** The `Display` of an `sqlx::Error`. */
  function DbErrorText(d: DbError): string {
    match d
    case RowNotFound => "no rows returned by a query that expected to return at least one row"
    case UniqueViolation(detail) => "error returned from database: " + detail
    case OtherDb(detail) => detail
  }

  /** The `Display` of an `AppError` (its `#[error(...)]` formats). */
  function Display(e: AppError): string {
    match e
    case Database(d) => "数据库错误: " + DbErrorText(d)
    case Validation(text) => "验证错误: " + text
    case Authentication(message) => "认证错误: " + message
    case Authorization(message) => "授权错误: " + message
    case NotFound(message) => "未找到资源: " + message
    case Conflict(message) => "冲突错误: " + message
    case Internal(message) => "内部服务器错误: " + message
    case PasswordHash => "密码哈希错误"
    case Jwt(detail) => "JWT错误: " + detail
    case TaskJoin(_) => "任务执行错误"
  }

  const RowNotFoundMessage := "请求的资源未找到"
  const DatabaseFailedMessage := "数据库操作失败"

  /** `AppError::error_message`: database errors are replaced by fixed texts. */
  function ErrorMessage(e: AppError): string {
    match e
    case Database(RowNotFound) => RowNotFoundMessage
    case Database(_) => DatabaseFailedMessage
    case _ => Display(e)
  }

  /** The text a database error shows the client does not depend on the underlying error,
      apart from whether a row was missing. */
  lemma DatabaseDetailHidden(d1: DbError, d2: DbError)
    requires d1.RowNotFound? == d2.RowNotFound?
    ensures ErrorMessage(Database(d1)) == ErrorMessage(Database(d2))
    ensures ErrorMessage(Database(d1)) in {RowNotFoundMessage, DatabaseFailedMessage}
  {
  }

  /** The JSON body of an error response. */
  datatype ErrorResponse = ErrorResponse(error: string, code: nat)

  datatype Response = Response(status: nat, body: ErrorResponse)

  /** `impl IntoResponse for AppError` */
  function IntoResponse(e: AppError): (r: Response)
    ensures r.status == StatusCode(e) && r.body.code == r.status
    ensures r.body.error == ErrorMessage(e)
  {
    var status := StatusCode(e);
    Response(status, ErrorResponse(ErrorMessage(e), status))
  }
}

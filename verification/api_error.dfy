/**
 * The JSON response helpers of lib/api/error.ts: the error codes, their
 * HTTP statuses, the error body, and the success response.
 */
module ApiError {
  import opened Outcomes

  datatype ErrorCode =
    | BadRequest | Unauthorized | Forbidden | NotFound | Conflict
    | ValidationError | RateLimited | DbError | InternalError

  /** `STATUS_MAP`. */
  function Status(code: ErrorCode): (status: nat)
    ensures 400 <= status <= 500
    ensures status == 500 <==> code == DbError || code == InternalError
  {
    match code
    case BadRequest => 400
    case Unauthorized => 401
    case Forbidden => 403
    case NotFound => 404
    case Conflict => 409
    case ValidationError => 422
    case RateLimited => 429
    case DbError => 500
    case InternalError => 500
  }

  /** The wire name of a code, as it appears in the body. */
  function CodeName(code: ErrorCode): string {
    match code
    case BadRequest => "BAD_REQUEST"
    case Unauthorized => "UNAUTHORIZED"
    case Forbidden => "FORBIDDEN"
    case NotFound => "NOT_FOUND"
    case Conflict => "CONFLICT"
    case ValidationError => "VALIDATION_ERROR"
    case RateLimited => "RATE_LIMITED"
    case DbError => "DB_ERROR"
    case InternalError => "INTERNAL_ERROR"
  }

  /** The client errors map to distinct statuses; only the two server errors share one. */
  lemma StatusDistinguishesClientErrors(a: ErrorCode, b: ErrorCode)
    requires Status(a) == Status(b) && Status(a) < 500
    ensures a == b
  {
  }

  /** Different codes have different wire names. */
  lemma CodeNamesDistinct(a: ErrorCode, b: ErrorCode)
    requires CodeName(a) == CodeName(b)
    ensures a == b
  {
    assert CodeName(a)[0] == CodeName(b)[0] && |CodeName(a)| == |CodeName(b)|;
    if a.DbError? || b.DbError? || a.InternalError? || b.InternalError? || a.Unauthorized? || b.Unauthorized? {
      assert CodeName(a)[1] == CodeName(b)[1];
    }
    if a.ValidationError? || b.ValidationError? || a.Conflict? || b.Conflict? {
      assert CodeName(a)[1] == CodeName(b)[1];
    }
  }

  /** `{ error: { code, message } }`. */
  datatype ErrorBody = ErrorBody(code: string, message: string)

  datatype Response<T> = Response(body: T, status: nat)

  /** `apiError(code, message)`: the code and message as the error body, under the code's status. */
  function ApiErrorResponse(code: ErrorCode, message: string): (r: Response<ErrorBody>)
    ensures r.body.code == CodeName(code) && r.body.message == message
    ensures r.status == Status(code) && 400 <= r.status <= 500
  {
    Response(ErrorBody(CodeName(code), message), Status(code))
  }

  /** `apiSuccess(data, status = 200)`: the data itself as the body. */
  function ApiSuccess<T>(data: T, status: Option<nat>): (r: Response<T>)
    ensures r.body == data
    ensures status.None? ==> r.status == 200
    ensures status.Some? ==> r.status == status.value
  {
    match status
    case None => Response(data, 200)
    case Some(s) => Response(data, s)
  }

  /** The examples the error helpers are used with. */
  lemma StatusExamples()
    ensures Status(NotFound) == 404 && Status(ValidationError) == 422 && Status(RateLimited) == 429
  {
  }

  /** A success response under the default status can never be mistaken for an error response. */
  lemma DefaultSuccessIsNoError<T>(data: T, code: ErrorCode, message: string)
    ensures ApiSuccess(data, None).status < ApiErrorResponse(code, message).status
    ensures ApiSuccess(data, None).body == data
  {
  }
}

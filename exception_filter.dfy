/** The global exception filter: every thrown value becomes a failure body
    with a status, a code, a message and optional details, and the request
    path. */
module ExceptionFilter {
  import opened Common
  import opened Json

  /** What `exception.getResponse()` returns: the string or the object the
      exception was built with. */
  datatype HttpResponse = TextResponse(text: string) | ObjectResponse(body: Json)

  /** A thrown value: a framework HTTP exception (its status, its response
      and its `message`), any other `Error`, or anything else. */
  datatype Exception =
    | HttpException(status: int, response: HttpResponse, message: string)
    | PlainError(message: string)
    | Other

  /** The body the filter sends, with the status it sends it under. The
      `success` flag is always false and `timestamp` comes from the clock. */
  datatype ErrorBody = ErrorBody(status: int, success: bool, code: Json, message: Json, details: Json, timestamp: string, path: string)

  /** `getErrorCode`. */
  function ErrorCode(status: int): (code: string)
    ensures code != "UNKNOWN_ERROR" <==> status in {400, 401, 403, 404, 409, 422, 429, 500}
  {
    if status == 400 then "BAD_REQUEST"
    else if status == 401 then "UNAUTHORIZED"
    else if status == 403 then "FORBIDDEN"
    else if status == 404 then "NOT_FOUND"
    else if status == 409 then "CONFLICT"
    else if status == 422 then "UNPROCESSABLE_ENTITY"
    else if status == 429 then "TOO_MANY_REQUESTS"
    else if status == 500 then "INTERNAL_ERROR"
    else "UNKNOWN_ERROR"
  }

  /** The body `catch` sends for `exception` on a request to `url`. */
  function ErrorResponse(exception: Exception, url: string, timestamp: string): (b: ErrorBody)
    ensures b.success == false && b.path == url && b.timestamp == timestamp
    ensures !exception.HttpException? ==> b.status == 500 && b.code == Str("INTERNAL_ERROR") && b.details == Undefined
  {
    match exception
    case HttpException(status, TextResponse(text), _) =>
      ErrorBody(status, false, Str(ErrorCode(status)), Str(text), Undefined, timestamp, url)
    case HttpException(status, ObjectResponse(body), message) =>
      ErrorBody(status, false, Or(Get(body, "error"), Str(ErrorCode(status))),
                Or(Get(body, "message"), Str(message)),
                Or(Get(body, "details"), Get(body, "message")), timestamp, url)
    case PlainError(message) =>
      ErrorBody(500, false, Str("INTERNAL_ERROR"), Str(message), Undefined, timestamp, url)
    case Other =>
      ErrorBody(500, false, Str("INTERNAL_ERROR"), Str("Internal server error"), Undefined, timestamp, url)
  }

  /** `catch`: the defaults, overwritten branch by branch. */
  method Catch(exception: Exception, url: string, timestamp: string) returns (b: ErrorBody)
    ensures b == ErrorResponse(exception, url, timestamp)
  {
    var status := 500;
    var message := Str("Internal server error");
    var code := Str("INTERNAL_ERROR");
    var details := Undefined;
    if exception.HttpException? {
      status := exception.status;
      match exception.response {
        case ObjectResponse(body) =>
          message := Or(Get(body, "message"), Str(exception.message));
          code := Or(Get(body, "error"), Str(ErrorCode(status)));
          details := Or(Get(body, "details"), Get(body, "message"));
        case TextResponse(text) =>
          message := Str(text);
          code := Str(ErrorCode(status));
      }
    } else if exception.PlainError? {
      message := Str(exception.message);
    }
    b := ErrorBody(status, false, code, message, details, timestamp, url);
  }

  /** The reason phrase the framework's built-in exceptions put in `error`. */
  function ReasonPhrase(e: Error): string {
    match e
    case Conflict(_) => "Conflict"
    case Unauthorized(_) => "Unauthorized"
    case Forbidden(_) => "Forbidden"
    case NotFound(_) => "Not Found"
    case StoreFailure(_) => "Internal Server Error"
  }

  /** How a service error is thrown: the four HTTP errors are the
      framework's exceptions built from a message, whose response is
      `{ statusCode, message, error: <reason phrase> }`; a store failure is
      a plain `Error`. */
  function Thrown(e: Error): Exception {
    if e.StoreFailure? then PlainError(e.message)
    else HttpException(e.Status(), ObjectResponse(Obj(map[
      "statusCode" := Num(e.Status() as real),
      "message" := Str(e.message),
      "error" := Str(ReasonPhrase(e))])), e.message)
  }

  // ---- properties ----

  /** The known statuses map to distinct codes. */
  lemma ErrorCodesDistinct(s: int, t: int)
    requires ErrorCode(s) != "UNKNOWN_ERROR" && s != t
    ensures ErrorCode(s) != ErrorCode(t)
  {
  }

  /** Every service error reaches the client with its own status and
      message; the code of an HTTP error is the reason phrase from the
      exception's body ("Not Found", not "NOT_FOUND") and its details
      repeat the message; a store failure becomes a 500 INTERNAL_ERROR
      carrying the message of the store's error (whose wording the model
      only stands in for: see `UNIQUE_VIOLATION`). */
  lemma ServiceErrorResponse(e: Error, url: string, timestamp: string)
    ensures var b := ErrorResponse(Thrown(e), url, timestamp);
      b.status == e.Status() && b.success == false && b.path == url
      && b.message == Str(e.message)
      && (!e.StoreFailure? ==> b.code == Str(ReasonPhrase(e)) && b.code != Str(ErrorCode(e.Status())))
      && (!e.StoreFailure? ==> b.details == Str(e.message))
      && (e.StoreFailure? ==> b.code == Str("INTERNAL_ERROR") && b.details == Undefined)
  {
  }

  /** A string response gives that message and the status's code, with no
      details; an object response without `error`, `message` or `details`
      falls back to the status's code and the exception's message. */
  lemma HttpExceptionFallbacks(status: int, text: string, message: string, url: string, timestamp: string)
    ensures var b := ErrorResponse(HttpException(status, TextResponse(text), message), url, timestamp);
      b.status == status && b.message == Str(text) && b.code == Str(ErrorCode(status)) && b.details == Undefined
    ensures var b := ErrorResponse(HttpException(status, ObjectResponse(Obj(map[])), message), url, timestamp);
      b.status == status && b.message == Str(message) && b.code == Str(ErrorCode(status)) && b.details == Undefined
  {
  }

  /** A validation failure, whose `message` is the list of violated rules,
      reports the whole list as both message and details. */
  lemma ValidationMessagesAreDetails(status: int, messages: seq<Json>, message: string, url: string, timestamp: string)
    ensures var b := ErrorResponse(HttpException(status, ObjectResponse(Obj(map["message" := Arr(messages), "error" := Str("Bad Request")])), message), url, timestamp);
      b.message == Arr(messages) && b.details == Arr(messages) && b.code == Str("Bad Request")
  {
  }
}

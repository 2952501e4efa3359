/**
 * The service's error type and its mapping to an HTTP status, a response
 * code and a response message (src/response/http_error.rs).
 */
module HttpError {
  import opened Strings

  const BAD_REQUEST: nat := 400
  const NOT_FOUND: nat := 404
  const UNPROCESSABLE_ENTITY: nat := 422
  const INTERNAL_SERVER_ERROR: nat := 500

  /** Every failure the core surfaces to a client. */
  datatype Exception =
    | InternalServer(message: string)
    | BadRequest(message: string)
    | FileNotFound(fileName: string)
    | UnprocessableEntity(message: string)

  /** What a failure turns into on the wire. */
  datatype ExceptionAttributes = ExceptionAttributes(statusCode: nat, respCode: int, respMsg: string)

  /** The JSON body of an error response. */
  datatype HttpResponseError = HttpResponseError(respMsg: string, respCode: int)

  /** An error response: its status line and its body. */
  datatype ErrorResponse = ErrorResponse(status: nat, body: HttpResponseError)

  /** Libraries whose errors the service converts with `From`. */
  datatype ErrorOrigin =
    | DataFusion | Parser | Sqlite | Arrow | ActixWeb | SerdeJson | GlobPattern | Glob | Io | Calamine | Xlsx

  /** An error raised by one of those libraries, reduced to its origin and its `to_string()` text. */
  datatype ForeignError = ForeignError(origin: ErrorOrigin, text: string)

  const FILE_NOT_FOUND_PREFIX := "File not found: "

  function NewAttributes(message: string, statusCode: nat): (a: ExceptionAttributes)
    ensures a.respCode == 1
    ensures a.respMsg == message && a.statusCode == statusCode
  {
    ExceptionAttributes(statusCode, 1, message)
  }

  /** The status and message of each kind of failure; the response code is always 1. */
  function Attributes(e: Exception): (a: ExceptionAttributes)
    ensures a.respCode == 1
    ensures a.statusCode == BAD_REQUEST <==> e.BadRequest?
    ensures a.statusCode == NOT_FOUND <==> e.FileNotFound?
    ensures a.statusCode == UNPROCESSABLE_ENTITY <==> e.UnprocessableEntity?
    ensures a.statusCode == INTERNAL_SERVER_ERROR <==> e.InternalServer?
    ensures e.FileNotFound? ==> a.respMsg == FILE_NOT_FOUND_PREFIX + e.fileName
    ensures !e.FileNotFound? ==> a.respMsg == e.message
  {
    match e
    case BadRequest(message) => NewAttributes(message, BAD_REQUEST)
    case FileNotFound(fileName) => NewAttributes(FILE_NOT_FOUND_PREFIX + fileName, NOT_FOUND)
    case InternalServer(message) => NewAttributes(message, INTERNAL_SERVER_ERROR)
    case UnprocessableEntity(message) => NewAttributes(message, UNPROCESSABLE_ENTITY)
  }

  /** No information is lost on the way to the wire: the attributes determine the failure. */
  lemma AttributesInjective(e1: Exception, e2: Exception)
    requires Attributes(e1) == Attributes(e2)
    ensures e1 == e2
  {
    if e1.FileNotFound? {
      var m := Attributes(e1).respMsg;
      assert e1.fileName == m[|FILE_NOT_FOUND_PREFIX|..];
      assert e2.fileName == m[|FILE_NOT_FOUND_PREFIX|..];
    }
  }

  /** The error response carries exactly the attributes' status, message and code. */
  function ErrorResponseOf(e: Exception): (r: ErrorResponse)
    ensures r.status == Attributes(e).statusCode
    ensures r.body.respMsg == Attributes(e).respMsg && r.body.respCode == 1
  {
    var attributes := Attributes(e);
    ErrorResponse(attributes.statusCode, HttpResponseError(attributes.respMsg, attributes.respCode))
  }

  /** The `Display` form of each failure. */
  function Display(e: Exception): (s: string)
    ensures e.InternalServer? ==> s == "Internal server error " + e.message
    ensures e.BadRequest? ==> s == "Bad Request: " + e.message
    ensures e.FileNotFound? ==> s == Attributes(e).respMsg
    ensures e.UnprocessableEntity? ==> s == "The data is not as expected. Expected: " + e.message
  {
    match e
    case InternalServer(message) => "Internal server error " + message
    case BadRequest(message) => "Bad Request: " + message
    case FileNotFound(fileName) => FILE_NOT_FOUND_PREFIX + fileName
    case UnprocessableEntity(message) => "The data is not as expected. Expected: " + message
  }

  function InternalServerError(message: string): (e: Exception)
    ensures e.InternalServer? && e.message == message
    ensures Attributes(e) == ExceptionAttributes(INTERNAL_SERVER_ERROR, 1, message)
  {
    InternalServer(message)
  }

  function BadRequestError(message: string): (e: Exception)
    ensures e.BadRequest? && e.message == message
    ensures Attributes(e) == ExceptionAttributes(BAD_REQUEST, 1, message)
  {
    BadRequest(message)
  }

  function FileNotFoundError(fileName: string): (e: Exception)
    ensures e.FileNotFound? && e.fileName == fileName
    ensures Attributes(e) == ExceptionAttributes(NOT_FOUND, 1, FILE_NOT_FOUND_PREFIX + fileName)
  {
    FileNotFound(fileName)
  }

  function UnprocessableEntityError(message: string): (e: Exception)
    ensures e.UnprocessableEntity? && e.message == message
    ensures Attributes(e) == ExceptionAttributes(UNPROCESSABLE_ENTITY, 1, message)
  {
    UnprocessableEntity(message)
  }

  /** Every library error becomes a Bad Request whose message is the library's own text. */
  function FromForeign(err: ForeignError): (e: Exception)
    ensures e.BadRequest? && e.message == err.text
    ensures Attributes(e) == ExceptionAttributes(BAD_REQUEST, 1, err.text)
  {
    BadRequest(err.text)
  }
}

/** The library's error: one record for `EvatrException` and its four
    subclasses, told apart by `kind`. */
module EvatrExceptions {
  import opened Wrappers
  import opened Json
  import opened StatusCodes

  /** Which class is thrown: `EvatrException` itself or one of the subclasses
      `ValidationException`, `ForbiddenException`, `NotFoundException`,
      `ServiceException`. */
  datatype ErrorKind = Base | Validation | Forbidden | NotFound | Service

  /** An HTTP response carried by a failed request: its status and its body as
      `json_decode($body, true)` returns it (`Null` when the body is not JSON). */
  datatype HttpResponse = HttpResponse(status: int, body: Json)

  /** A `GuzzleException`: its message, and the response when it is a
      `RequestException` that has one. */
  datatype TransportFailure = TransportFailure(message: string, response: Option<HttpResponse>)

  /** An `EvatrException`: message, the service's status code if it reported a
      known one, the HTTP status as the exception code (0 without a response),
      and the chained cause. */
  datatype EvatrError = EvatrError(
    kind: ErrorKind,
    message: string,
    statusCode: Option<StatusCode>,
    code: int,
    previous: Option<TransportFailure>)

  /** `new EvatrException($message, $statusCode, $httpCode, $previous)` (or a
      subclass): every argument is kept as given, `httpCode` becomes the code. */
  function NewError(kind: ErrorKind, message: string, statusCode: Option<StatusCode> := None,
                    httpCode: int := 0, previous: Option<TransportFailure> := None): (e: EvatrError)
    ensures e.kind == kind && e.message == message
    ensures e.statusCode == statusCode && e.code == httpCode && e.previous == previous
  {
    EvatrError(kind, message, statusCode, httpCode, previous)
  }

  /** Left out, the optional arguments give no status code, code 0 and no cause. */
  lemma NewErrorDefaults(kind: ErrorKind, message: string)
    ensures NewError(kind, message).statusCode == None
    ensures NewError(kind, message).code == 0
    ensures NewError(kind, message).previous == None
  {
  }
}

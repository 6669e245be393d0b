/** The application's error taxonomy: a closed set of six error kinds, each
    carrying the message it was constructed with, the constant status string
    "error" and an HTTP status code, plus the one serialisation of an error
    into the wire body `{message, status, statusCode}`.

    The class hierarchy of the source (an abstract base with six concrete
    subclasses whose fields are fixed at construction) becomes one closed
    datatype: every kind is one constructor holding the message. */
module ErrorHandler {

  datatype Option<T> = None | Some(value: T)

  // HTTP status codes used by the taxonomy, with the values RFC 9110 gives them.

  /** 400 Bad Request, section 15.5.1 of RFC 9110 */
  const StatusBadRequest: int := 400
  /** 401 Unauthorized, section 15.5.2 of RFC 9110 */
  const StatusUnauthorized: int := 401
  /** 404 Not Found, section 15.5.5 of RFC 9110 */
  const StatusNotFound: int := 404
  /** 413 Content Too Large (named REQUEST_TOO_LONG by the status-code
      package the source uses), section 15.5.14 of RFC 9110 */
  const StatusRequestTooLong: int := 413
  /** 503 Service Unavailable, section 15.6.4 of RFC 9110 */
  const StatusServiceUnavailable: int := 503

  /** The 4xx class (client error), section 15.5 of RFC 9110 */
  predicate IsClientError(code: int) { 400 <= code <= 499 }

  /** The 5xx class (server error), section 15.6 of RFC 9110 */
  predicate IsServerError(code: int) { 500 <= code <= 599 }

  /** One constructor per concrete subclass of the abstract error base. */
  datatype ErrorKind =
    | JoiRequestValidationError(message: string)
    | BadRequestError(message: string)
    | NotfoundError(message: string)
    | UnAuthorizedError(message: string)
    | FileToLargeError(message: string)
    | ServerError(message: string)

  /** The serialised error body: message, status string and numeric code. */
  datatype SerializedError = SerializedError(message: string, status: string, statusCode: int)

  /** The `status` field every concrete kind declares. */
  function Status(e: ErrorKind): (s: string)
    ensures s == "error"
  {
    match e
    case JoiRequestValidationError(_) => "error"
    case BadRequestError(_) => "error"
    case NotfoundError(_) => "error"
    case UnAuthorizedError(_) => "error"
    case FileToLargeError(_) => "error"
    case ServerError(_) => "error"
  }

  /** The status-code field every concrete kind declares. The ensures clauses
      read the table backwards: each code belongs to exactly the kinds listed,
      every code is a 4xx or 5xx error code, and only ServerError is 5xx. */
  function StatusCode(e: ErrorKind): (code: int)
    ensures code == StatusBadRequest <==> e.JoiRequestValidationError? || e.BadRequestError?
    ensures code == StatusNotFound <==> e.NotfoundError?
    ensures code == StatusUnauthorized <==> e.UnAuthorizedError?
    ensures code == StatusRequestTooLong <==> e.FileToLargeError?
    ensures code == StatusServiceUnavailable <==> e.ServerError?
    ensures 400 <= code <= 599
    ensures IsServerError(code) <==> e.ServerError?
    ensures IsClientError(code) <==> !e.ServerError?
  {
    match e
    case JoiRequestValidationError(_) => StatusBadRequest
    case BadRequestError(_) => StatusBadRequest
    case NotfoundError(_) => StatusNotFound
    case UnAuthorizedError(_) => StatusUnauthorized
    case FileToLargeError(_) => StatusRequestTooLong
    case ServerError(_) => StatusServiceUnavailable
  }

  /** The serialisation method of the abstract base: builds the wire body from
      the error's message, status and status code. */
  function Serialize(e: ErrorKind): (r: SerializedError)
    ensures r.message == e.message
    ensures r.status == Status(e) && r.statusCode == StatusCode(e)
  {
    SerializedError(e.message, Status(e), StatusCode(e))
  }

  /** The whole code table at once, for an arbitrary message. */
  lemma SerializeTable(m: string)
    ensures Serialize(JoiRequestValidationError(m)) == SerializedError(m, "error", 400)
    ensures Serialize(BadRequestError(m)) == SerializedError(m, "error", 400)
    ensures Serialize(NotfoundError(m)) == SerializedError(m, "error", 404)
    ensures Serialize(UnAuthorizedError(m)) == SerializedError(m, "error", 401)
    ensures Serialize(FileToLargeError(m)) == SerializedError(m, "error", 413)
    ensures Serialize(ServerError(m)) == SerializedError(m, "error", 503)
  {
  }

  /** A worked instance: a not-found error with a sample message. */
  lemma SerializeNotFoundSample()
    ensures Serialize(NotfoundError("room missing")) == SerializedError("room missing", "error", 404)
  {
  }

  /** Reads a wire body back as an error kind. The two 400 kinds share one
      wire form, so a 400 body is read back as BadRequestError; a body whose
      status is not "error" or whose code is not in the table is rejected. */
  function Classify(r: SerializedError): (e: Option<ErrorKind>)
    ensures e.Some? ==> e.value.message == r.message
    ensures e.Some? <==> r.status == "error" && r.statusCode in {400, 401, 404, 413, 503}
  {
    if r.status != "error" then None
    else if r.statusCode == StatusBadRequest then Some(BadRequestError(r.message))
    else if r.statusCode == StatusNotFound then Some(NotfoundError(r.message))
    else if r.statusCode == StatusUnauthorized then Some(UnAuthorizedError(r.message))
    else if r.statusCode == StatusRequestTooLong then Some(FileToLargeError(r.message))
    else if r.statusCode == StatusServiceUnavailable then Some(ServerError(r.message))
    else None
  }

  /** Serialisation loses nothing but the distinction between the two 400
      kinds: reading the body back gives the same error, except that a
      validation error comes back as a bad-request error with its message. */
  lemma ClassifySerialize(e: ErrorKind)
    ensures Classify(Serialize(e)) ==
      Some(if e.JoiRequestValidationError? then BadRequestError(e.message) else e)
  {
  }

  /** Every body Classify accepts is the serialisation of the error it yields. */
  lemma SerializeClassify(r: SerializedError)
    requires Classify(r).Some?
    ensures Serialize(Classify(r).value) == r
  {
  }

  /** Two errors serialise identically exactly when they are the same error,
      or carry the same message and are both 400 kinds. In particular the body
      depends on nothing but the kind and the message. */
  lemma SerializeEqual(a: ErrorKind, b: ErrorKind)
    ensures Serialize(a) == Serialize(b) <==>
      a == b || (a.message == b.message && StatusCode(a) == StatusBadRequest && StatusCode(b) == StatusBadRequest)
  {
    if Serialize(a) == Serialize(b) && a != b {
      ClassifySerialize(a);
      ClassifySerialize(b);
    }
  }
}

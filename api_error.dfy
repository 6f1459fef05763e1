/**
 * The error normaliser of the HTTP client (`handleApiError`): every transport
 * failure becomes one `ApiError {message, code?, status?}`.
 */
module ApiErrors {
  import opened Wrappers

  /** The JSON body of an error response; only its `message` field is read. */
  datatype Body = Body(message: Option<string>)

  /** `error.response`: the status the server answered with and the body, if any. */
  datatype HttpResponse = HttpResponse(status: int, data: Option<Body>)

  /**
   * A transport failure as the HTTP client reports it: the server's response
   * when one arrived, and whether a request object was built and sent.
   */
  datatype Failure = Failure(response: Option<HttpResponse>, hasRequest: bool)

  /** The closed error taxonomy. */
  datatype ErrorCode =
    | BadRequest | Unauthorized | Forbidden | NotFound | ServerError
    | UnknownError | NetworkError | RequestError
  {
    /** The tag as it appears in the `code` field. */
    function Name(): string {
      match this
      case BadRequest => "BAD_REQUEST"
      case Unauthorized => "UNAUTHORIZED"
      case Forbidden => "FORBIDDEN"
      case NotFound => "NOT_FOUND"
      case ServerError => "SERVER_ERROR"
      case UnknownError => "UNKNOWN_ERROR"
      case NetworkError => "NETWORK_ERROR"
      case RequestError => "REQUEST_ERROR"
    }
  }

  /** The normalised error handed to the UI. */
  datatype ApiError = ApiError(message: string, code: Option<ErrorCode>, status: Option<int>)

  /**
   * The `ERROR_MESSAGES` table of the client's configuration. Its texts are
   * not part of this model, so the normaliser takes the table as a parameter.
   */
  datatype ErrorMessages = ErrorMessages(
    unauthorized: string, forbidden: string, notFound: string,
    serverError: string, unknownError: string, networkError: string)

  /** The built-in text for a rejected request whose body carries no message. */
  const InvalidDataText: string := "Dữ liệu không hợp lệ"

  /**
   * The status a code stands for, for the codes that stand for exactly one
   * status; the other codes stand for none.
   */
  function CodeStatus(c: ErrorCode): Option<int> {
    match c
    case BadRequest => Some(400)
    case Unauthorized => Some(401)
    case Forbidden => Some(403)
    case NotFound => Some(404)
    case ServerError => Some(500)
    case _ => None
  }

  /**
   * `data?.message || fallback`: the body's message when the body has a
   * truthy (non-empty) one, the fallback text otherwise.
   */
  function MessageOr(data: Option<Body>, fallback: string): (m: string)
    ensures data.Some? && data.value.message.Some? && data.value.message.value != "" ==>
              m == data.value.message.value
    ensures (data.None? || data.value.message.None? || data.value.message.value == "") ==>
              m == fallback
  {
    if data.Some? && data.value.message.Some? && data.value.message.value != "" then
      data.value.message.value
    else
      fallback
  }

  /**
   * `handleApiError`: total over every failure. The status is kept exactly
   * when a response arrived; a response decides the outcome whatever the
   * request holds; each of the five listed statuses gets its own code and
   * every other status gets UNKNOWN_ERROR; without a response the code says
   * whether a request went out.
   */
  function HandleApiError(e: Failure, msgs: ErrorMessages): (r: ApiError)
    ensures r.code.Some?
    ensures r.status.Some? <==> e.response.Some?
    ensures e.response.Some? ==> r.status == Some(e.response.value.status)
    // a code that stands for one status is given for exactly that status
    ensures forall c: ErrorCode :: CodeStatus(c).Some? ==>
              (r.code == Some(c) <==> r.status == CodeStatus(c))
    ensures r.code == Some(UnknownError) <==>
              e.response.Some? && forall c: ErrorCode :: CodeStatus(c) != r.status
    ensures r.code == Some(NetworkError) <==> e.response.None? && e.hasRequest
    ensures r.code == Some(RequestError) <==> e.response.None? && !e.hasRequest
  {
    if e.response.Some? then
      var status := e.response.value.status;
      var data := e.response.value.data;
      match status
      case 400 => ApiError(MessageOr(data, InvalidDataText), Some(BadRequest), Some(status))
      case 401 => ApiError(msgs.unauthorized, Some(Unauthorized), Some(status))
      case 403 => ApiError(msgs.forbidden, Some(Forbidden), Some(status))
      case 404 => ApiError(msgs.notFound, Some(NotFound), Some(status))
      case 500 => ApiError(msgs.serverError, Some(ServerError), Some(status))
      case _ => ApiError(MessageOr(data, msgs.unknownError), Some(UnknownError), Some(status))
    else if e.hasRequest then
      ApiError(msgs.networkError, Some(NetworkError), None)
    else
      ApiError(msgs.unknownError, Some(RequestError), None)
  }

  /**
   * Where the message comes from: the body (with its own fallback) for
   * BAD_REQUEST and UNKNOWN_ERROR, the fixed table text for every other code.
   */
  lemma MessageSource(e: Failure, msgs: ErrorMessages)
    ensures var r := HandleApiError(e, msgs);
      && (r.code == Some(BadRequest) ==> r.message == MessageOr(e.response.value.data, InvalidDataText))
      && (r.code == Some(UnknownError) ==> r.message == MessageOr(e.response.value.data, msgs.unknownError))
      && (r.code == Some(Unauthorized) ==> r.message == msgs.unauthorized)
      && (r.code == Some(Forbidden) ==> r.message == msgs.forbidden)
      && (r.code == Some(NotFound) ==> r.message == msgs.notFound)
      && (r.code == Some(ServerError) ==> r.message == msgs.serverError)
      && (r.code == Some(NetworkError) ==> r.message == msgs.networkError)
      && (r.code == Some(RequestError) ==> r.message == msgs.unknownError)
  {
  }

  /** When a response arrived it alone decides the error: the request field plays no part. */
  lemma ResponseDecides(e1: Failure, e2: Failure, msgs: ErrorMessages)
    requires e1.response.Some? && e1.response == e2.response
    ensures HandleApiError(e1, msgs) == HandleApiError(e2, msgs)
  {
  }

  /** For 401, 403, 404 and 500 the body is ignored: only the status matters. */
  lemma FixedCodesIgnoreBody(e1: Failure, e2: Failure, msgs: ErrorMessages)
    requires e1.response.Some? && e2.response.Some?
    requires e1.response.value.status == e2.response.value.status
    requires e1.response.value.status in {401, 403, 404, 500}
    ensures HandleApiError(e1, msgs) == HandleApiError(e2, msgs)
  {
  }

  /** The code tags are pairwise distinct, so a tag names one code. */
  lemma NameInjective(a: ErrorCode, b: ErrorCode)
    requires a.Name() == b.Name()
    ensures a == b
  {
  }
}

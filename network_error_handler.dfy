/** Classification of HTTP failures by status code, and of thrown causes by class. */
module NetworkErrorHandler {
  import opened Models
  import opened NetworkResults

  /** The classes checked with `is` in `handleException`. */
  datatype ExceptionClass = UnknownHostException | SocketTimeoutException | IOException

  /** `kind is cls`, following the JDK's class hierarchy. */
  predicate IsInstance(kind: FailureKind, cls: ExceptionClass)
  {
    match cls
    case UnknownHostException => kind == UnknownHost
    case SocketTimeoutException => kind == SocketTimeout
    case IOException => kind != NonIO
  }

  /** The status codes with a message of their own, in the order the handler tests them. */
  const StatusMessages: seq<(Int32, string)> := [
    (400, "Bad request"),
    (401, "Unauthorized"),
    (403, "Forbidden"),
    (404, "Not found"),
    (408, "Request timeout"),
    (500, "Internal server error"),
    (502, "Bad gateway"),
    (503, "Service unavailable")
  ]

  const UnknownErrorMessage: string := "Unknown error occurred"

  function Lookup(table: seq<(Int32, string)>, status: Int32): Option<string>
    decreases |table|
  {
    if table == [] then None
    else if table[0].0 == status then Some(table[0].1)
    else Lookup(table[1..], status)
  }

  /** `handleApiError(response)` on `response.code()`: always an Error, never Success or
      Exception, and always carrying the status as its code. */
  function HandleApiError<T>(status: Int32): (r: NetworkResult<T>)
    ensures r.Error? && r.code == Some(status)
  {
    if status == 400 then Error("Bad request", Some(400))
    else if status == 401 then Error("Unauthorized", Some(401))
    else if status == 403 then Error("Forbidden", Some(403))
    else if status == 404 then Error("Not found", Some(404))
    else if status == 408 then Error("Request timeout", Some(408))
    else if status == 500 then Error("Internal server error", Some(500))
    else if status == 502 then Error("Bad gateway", Some(502))
    else if status == 503 then Error("Service unavailable", Some(503))
    else Error(UnknownErrorMessage, Some(status))
  }

  /** The handler agrees with the status table: a listed status gets its own message, every
      other status the generic one. */
  lemma HandleApiErrorMatchesTable<T>(status: Int32)
    ensures Lookup(StatusMessages, status).Some? ==>
              HandleApiError<T>(status) == Error(Lookup(StatusMessages, status).value, Some(status))
    ensures Lookup(StatusMessages, status).None? ==>
              HandleApiError<T>(status) == Error(UnknownErrorMessage, Some(status))
    ensures Lookup(StatusMessages, status).None? <==>
              status !in {400, 401, 403, 404, 408, 500, 502, 503}
  {
  }

  /** `handleException(cause)`: the three IOException kinds become an Error with a fixed
      message and no code, checked in the order unknown host, socket timeout, any other
      IOException; anything else is wrapped unchanged as an Exception. */
  function HandleException<T>(cause: Throwable): (r: NetworkResult<T>)
    ensures !r.Success?
    ensures r.Exception? <==> !IsInstance(cause.kind, IOException)
    ensures r.Exception? ==> r.exception == cause
    ensures r.Error? ==> r.code == None
    ensures cause.kind == UnknownHost ==> r.Error? && r.message == "No internet connection"
    ensures cause.kind == SocketTimeout ==> r.Error? && r.message == "Request timeout"
    ensures cause.kind == OtherIO ==> r.Error? && r.message == "Network error occurred"
  {
    if IsInstance(cause.kind, UnknownHostException) then Error("No internet connection")
    else if IsInstance(cause.kind, SocketTimeoutException) then Error("Request timeout")
    else if IsInstance(cause.kind, IOException) then Error("Network error occurred")
    else Exception(cause)
  }

  /** A socket timeout is an IOException, yet it gets the timeout message because its own
      test comes first. */
  lemma SocketTimeoutBeforeIOException<T>(cause: Throwable)
    requires cause.kind == SocketTimeout
    ensures IsInstance(cause.kind, IOException)
    ensures HandleException<T>(cause) == Error("Request timeout", None)
  {
  }
}

/**
 * The HTTP layer the storage client talks to, reduced to values: the request
 * it hands to `requests`, the outcome it gets back, the exceptions that can
 * reach its `except` clauses, and what a call finally does for its caller.
 */
module Http {
  import opened Wrappers
  import opened Values

  datatype Method = Post | Delete

  /** A value of the `data=` dict: a string, or a list sent as repeated fields. */
  datatype FormValue = Field(text: string) | Fields(texts: seq<string>)

  /** The body as handed to `requests`: a `json=` dict or a form-encoded `data=` dict. */
  datatype Body = JsonBody(json: map<string, Json>) | FormBody(form: map<string, FormValue>)

  datatype HttpRequest = HttpRequest(verb: Method, url: string, body: Body, headers: map<string, string>)

  /** What `response.json()` would give: a decoded value, or a decoding failure. */
  datatype Payload = Decodes(value: Json) | Undecodable

  /** What sending a request yields: a response, or an exception raised by `requests` itself. */
  datatype Outcome = Response(status: int, payload: Payload) | TransportFailure

  /** The exceptions the client's code can meet; only `HttpError` is an `HTTPError`. */
  datatype Exception =
    | TransportError
    | HttpError(status: int)
    | DecodeError
    | KeyError(key: string)
    | TypeError

  /** What a call does for its caller: return a value, return `None`, or raise. */
  datatype OpResult = Returned(value: Json) | ReturnedNone | Raised(error: Exception)

  /** The statuses for which `raise_for_status()` raises: client and server errors. */
  predicate IsErrorStatus(status: int) {
    400 <= status < 600
  }

  /** `response.raise_for_status()`. */
  function RaiseForStatus(status: int): (e: Option<Exception>)
    ensures e.Some? <==> IsErrorStatus(status)
    ensures e.Some? ==> e.value == HttpError(status)
  {
    if 400 <= status < 500 then Some(HttpError(status))
    else if 500 <= status < 600 then Some(HttpError(status))
    else None
  }

  /**
   * The `try` block of `move`, `remove` and `list` once the request is built:
   * send it, then `raise_for_status()`. On success the response is kept for
   * the `else` clause.
   */
  function SendAndCheck(o: Outcome): (r: Result<Payload, Exception>)
    ensures r.Success? <==> o.Response? && !IsErrorStatus(o.status)
    ensures r.Success? ==> r.value == o.payload
    ensures o.TransportFailure? ==> r == Failure(TransportError)
    ensures o.Response? && IsErrorStatus(o.status) ==> r == Failure(HttpError(o.status))
  {
    match o
    case TransportFailure => Failure(TransportError)
    case Response(status, payload) =>
      match RaiseForStatus(status)
      case Some(e) => Failure(e)
      case None => Success(payload)
  }

  /**
   * `except HTTPError: print(...)` then `except Exception: print(...)`:
   * whatever was raised, the method falls off its end and returns `None`.
   */
  function SwallowAll(e: Exception): (r: OpResult) {
    ReturnedNone
  }

  /**
   * `except HTTPError: print(...)` then `except Exception as err: raise err`:
   * an HTTP error yields `None`, anything else reaches the caller.
   */
  function SwallowHttpError(e: Exception): (r: OpResult) {
    if e.HttpError? then ReturnedNone else Raised(e)
  }

  /** The `else` clause `return response.json()`, which runs outside the `try`. */
  function ReturnJson(p: Payload): (r: OpResult) {
    match p
    case Decodes(v) => Returned(v)
    case Undecodable => Raised(DecodeError)
  }
}

/** The interceptors of the shared HTTP client: the request interceptor that
    attaches the bearer token, and the success and error callbacks of the
    response interceptor that turn every answer into one uniform shape. */
module Api {
  import opened Js
  import opened WebStorage

  /** The global environment: no `window` object (server-side rendering),
      a window whose storage access throws, or an ordinary window. */
  datatype Env = NoWindow | StorageThrows | Window

  /** `safeGetLocalStorage(key)`: never throws; null without a window or
      when the storage access throws. */
  function SafeGet(env: Env, storage: LocalStorage, key: string): (r: Option<string>)
    reads storage
    ensures env == Window ==> r == MapGet(storage.items, key)
    ensures env != Window ==> r.None?
    ensures r.Some? ==> key in storage.items && r.value == storage.items[key]
  {
    match env
    case Window => MapGet(storage.items, key)
    case _ => None
  }

  // ---------------------------------------------------------------------
  // Requests

  /** `config.metadata`: the time the request started and its url. */
  datatype Metadata = Metadata(startTime: int, url: Option<string>)

  /** The parts of an axios request config the interceptor touches. */
  datatype RequestConfig = RequestConfig(url: Option<string>, headers: map<string, string>, metadata: Option<Metadata>)

  /** The request interceptor, with `new Date()` given as `now`: a non-empty
      stored token becomes the Authorization header, every other header is
      kept, and the metadata is always attached. */
  function OnRequest(env: Env, storage: LocalStorage, config: RequestConfig, now: int): (r: RequestConfig)
    reads storage
    ensures Present(SafeGet(env, storage, "token")) ==>
              r.headers == config.headers["Authorization" := "Bearer " + SafeGet(env, storage, "token").value]
    ensures !Present(SafeGet(env, storage, "token")) ==> r.headers == config.headers
    // without a window, or when storage access throws, nothing is attached
    ensures env != Window ==> r.headers == config.headers
    ensures env == Window && "token" in storage.items && storage.items["token"] != "" ==>
              r.headers == config.headers["Authorization" := "Bearer " + storage.items["token"]]
    ensures forall k :: k != "Authorization" ==> (k in r.headers <==> k in config.headers)
    ensures forall k :: k != "Authorization" && k in config.headers ==> r.headers[k] == config.headers[k]
    ensures r.url == config.url && r.metadata == Some(Metadata(now, config.url))
  {
    var token := SafeGet(env, storage, "token");
    var headers := if Present(token) then config.headers["Authorization" := "Bearer " + token.value] else config.headers;
    config.(headers := headers, metadata := Some(Metadata(now, config.url)))
  }

  /** The Error the request error callback rejects with. */
  datatype RequestFailure = RequestFailure(message: string, typ: string)

  /** The request error callback. An error without a message renders it as
      "undefined" in the template literal. */
  function OnRequestError(message: Option<string>): (r: RequestFailure)
    ensures r.typ == "REQUEST_ERROR"
    ensures message.Some? ==> r.message == "Request failed: " + message.value
    ensures message.None? ==> r.message == "Request failed: undefined"
  {
    RequestFailure("Request failed: " + (if message.Some? then message.value else "undefined"), "REQUEST_ERROR")
  }

  // ---------------------------------------------------------------------
  // Responses

  /** An axios response with a body of type `D`. */
  datatype Response<D> = Response(url: Option<string>, data: D, status: int, headers: map<string, string>)

  /** What the success callback resolves to. */
  datatype Success<D> = Success(success: bool, data: D, status: int, headers: map<string, string>)

  /** The success callback; the timing it logs is left out. */
  function OnResponse<D>(resp: Response<D>): (r: Success<D>)
    ensures r.success
    ensures r.data == resp.data && r.status == resp.status && r.headers == resp.headers
  {
    Success(true, resp.data, resp.status, resp.headers)
  }

  /** `error.response`, when the server answered. */
  datatype ErrorReply<D> = ErrorReply(status: int, data: D)

  /** An axios error. */
  datatype AxiosError<D> = AxiosError(message: Option<string>, code: Option<string>, response: Option<ErrorReply<D>>)

  /** The `errorResponse` object the error callback rejects with. */
  datatype ErrorResponse<D> = ErrorResponse(success: bool, message: Option<string>, code: Option<string>,
                                            status: Option<int>, data: Option<D>, typ: Option<string>)

  /** How the promise of the error callback settles: rejected with the
      error response, or rejected by a ReferenceError thrown on the way. */
  datatype Outcome<D> = RejectsWith(err: ErrorResponse<D>) | Throws

  predicate Is401<D>(e: AxiosError<D>) {
    e.response.Some? && e.response.value.status == 401
  }

  /** The error response after its overwrites: the timeout rule first, the
      missing-response rule over it, and the server-error type last. */
  function Classify<D>(e: AxiosError<D>): (r: ErrorResponse<D>)
    ensures !r.success && r.code == e.code
    ensures r.status == (if e.response.Some? then Some(e.response.value.status) else None)
    ensures r.data == (if e.response.Some? then Some(e.response.value.data) else None)
    ensures r.typ ==
              if e.response.Some? && e.response.value.status >= 500 then Some("SERVER_ERROR")
              else if e.response.None? then Some("NETWORK_ERROR")
              else if e.code == Some("ECONNABORTED") then Some("TIMEOUT_ERROR")
              else None
    ensures r.message ==
              if e.response.None? then Some("Network connection error")
              else if e.code == Some("ECONNABORTED") then Some("Request timeout")
              else e.message
  {
    var r0 := ErrorResponse(false, e.message, e.code,
                            if e.response.Some? then Some(e.response.value.status) else None,
                            if e.response.Some? then Some(e.response.value.data) else None,
                            None);
    var r1 := if e.code == Some("ECONNABORTED") then r0.(message := Some("Request timeout"), typ := Some("TIMEOUT_ERROR")) else r0;
    var r2 := if e.response.None? then r1.(typ := Some("NETWORK_ERROR"), message := Some("Network connection error")) else r1;
    if e.response.Some? && e.response.value.status >= 500 then r2.(typ := Some("SERVER_ERROR")) else r2
  }

  /** The error callback of the response interceptor. `events` lists the
      events dispatched on `window`. On a 401 the stored token is removed
      when `safeGetLocalStorage` finds a non-empty one, and one
      'unauthorized' event is dispatched; without a window the dispatch
      throws instead. */
  method OnResponseError<D>(env: Env, storage: LocalStorage, e: AxiosError<D>) returns (out: Outcome<D>, events: seq<string>)
    modifies storage
    ensures out.Throws? <==> Is401(e) && env == NoWindow
    ensures out.RejectsWith? ==> out.err == Classify(e)
    ensures events == if Is401(e) && env != NoWindow then ["unauthorized"] else []
    ensures storage.items == if Is401(e) && old(Present(SafeGet(env, storage, "token")))
                             then old(storage.items) - {"token"} else old(storage.items)
  {
    var errorResponse := ErrorResponse(false, e.message, e.code,
                                       if e.response.Some? then Some(e.response.value.status) else None,
                                       if e.response.Some? then Some(e.response.value.data) else None,
                                       None);
    if e.code == Some("ECONNABORTED") {
      errorResponse := errorResponse.(message := Some("Request timeout"));
      errorResponse := errorResponse.(typ := Some("TIMEOUT_ERROR"));
    }
    if e.response.None? {
      errorResponse := errorResponse.(typ := Some("NETWORK_ERROR"));
      errorResponse := errorResponse.(message := Some("Network connection error"));
    }
    events := [];
    if e.response.Some? && e.response.value.status == 401 {
      if Present(SafeGet(env, storage, "token")) {
        storage.RemoveItem("token");
      }
      if env == NoWindow {
        // `window` is not defined
        return Throws, events;
      }
      events := events + ["unauthorized"];
    }
    if e.response.Some? && e.response.value.status >= 500 {
      errorResponse := errorResponse.(typ := Some("SERVER_ERROR"));
    }
    out := RejectsWith(errorResponse);
  }

  /** The `success` flag tells the two callbacks apart: every answer the
      success callback resolves with has it set, carrying the response's
      data, status and headers, and every error response the error callback
      rejects with has it clear. */
  lemma SuccessFlagSeparatesOutcomes<D, E>(resp: Response<D>, e: AxiosError<E>)
    ensures var ok := OnResponse(resp);
            && ok.success && !Classify(e).success
            && ok.data == resp.data && ok.status == resp.status && ok.headers == resp.headers
  {
  }

  /** A timed-out request that got no response reads as a network error:
      the missing-response rule overrides the timeout rule. */
  lemma TimeoutWithoutResponseIsNetworkError<D>(message: Option<string>)
    ensures var e: AxiosError<D> := AxiosError(message, Some("ECONNABORTED"), None);
            var r := Classify(e);
            r.typ == Some("NETWORK_ERROR") && r.message == Some("Network connection error")
  {
  }

  /** A 5xx answer is a server error even when the request timed out, and
      it keeps the timeout message. */
  lemma ServerErrorWinsOverTimeout<D>(message: Option<string>, status: int, data: D)
    requires status >= 500
    ensures var r := Classify(AxiosError(message, Some("ECONNABORTED"), Some(ErrorReply(status, data))));
            r.typ == Some("SERVER_ERROR") && r.message == Some("Request timeout") && r.status == Some(status)
  {
  }
}

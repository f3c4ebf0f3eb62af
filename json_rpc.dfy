/**
 * JSON-RPC 2.0 response envelopes (section 5 of the JSON-RPC 2.0
 * specification), as both transports build them around the dispatcher's
 * outcome: `jsonrpc`, the request's `id`, and exactly one of `result` or
 * `error`. Which one is decided by whether the handler's dict has an
 * "error" key; an exception becomes an -32603 "Internal error".
 */
module JsonRpc {
  import opened Wrappers
  import opened JsonValues
  import opened Dispatcher

  /** JSON-RPC 2.0 "Internal error" (section 5.1). */
  const InternalErrorCode := -32603

  /** A response to the request with id `id`: version "2.0", that id, and exactly one of result or error. */
  predicate IsResponse(e: Object, id: Json) {
    && |e| == 3
    && Get(e, "jsonrpc") == Some(JStr("2.0"))
    && Get(e, "id") == Some(id)
    && HasKey(e, "result") != HasKey(e, "error")
  }

  /** The error member of a response, if it has one: `{"code": code, "message": message}`. */
  predicate HasError(e: Object, code: int, message: string) {
    Get(e, "error") == Some(JObject([("code", JInt(code)), ("message", JStr(message))]))
  }

  /** The envelope around a dict the handler returned. */
  function Envelope(id: Json, result: Object): (e: Object)
    ensures IsResponse(e, id)
    ensures HasKey(e, "error") <==> HasKey(result, "error")
    ensures HasKey(result, "error") ==> Get(e, "error") == Get(result, "error")
    ensures !HasKey(result, "error") ==> Get(e, "result") == Some(JObject(result))
  {
    var e := if HasKey(result, "error") then [("jsonrpc", JStr("2.0")), ("id", id), ("error", Get(result, "error").value)]
             else [("jsonrpc", JStr("2.0")), ("id", id), ("result", JObject(result))];
    assert e[0].0 == "jsonrpc" && e[1].0 == "id";
    assert HasKey(e, "error") <==> e[2].0 == "error";
    assert HasKey(e, "result") <==> e[2].0 == "result";
    e
  }

  /** The envelope built in the `except` branches: an -32603 error carrying the exception text. */
  function InternalError(id: Json, message: string): (e: Object)
    ensures IsResponse(e, id) && HasError(e, InternalErrorCode, message) && !HasKey(e, "result")
  {
    var e := [("jsonrpc", JStr("2.0")), ("id", id),
              ("error", JObject([("code", JInt(InternalErrorCode)), ("message", JStr(message))]))];
    assert e[0].0 == "jsonrpc" && e[1].0 == "id" && e[2].0 == "error";
    assert !HasKey(e, "result");
    e
  }

  /** `request.get("id")`: the id to echo, None when absent. */
  function RequestId(request: Object): Json {
    GetOr(request, "id", JNull)
  }

  /**
   * The response either transport sends for a decoded request object: the
   * envelope around what the handler returned, or -32603 if it raised.
   */
  function Respond(request: Object): (e: Object)
    ensures IsResponse(e, RequestId(request))
  {
    match HandleRequest(request).outcome
    case Returned(result) => Envelope(RequestId(request), result)
    case Raised(message) => InternalError(RequestId(request), message)
  }

  /**
   * A response carries an error exactly when the method or tool is unknown
   * (code -32601) or the handler raised (code -32603, with the exception text);
   * otherwise it carries the handler's dict as its result.
   */
  lemma RespondErrors(request: Object)
    ensures var e := Respond(request);
      var h := HandleRequest(request);
      && (HasKey(e, "error") <==>
            (!IsKnownMethod(MethodOf(request)) || CallsUnknownTool(request) || h.outcome.Raised?))
      && ((!IsKnownMethod(MethodOf(request)) || CallsUnknownTool(request)) ==>
            exists message :: HasError(e, MethodNotFound, message))
      && (h.outcome.Raised? ==> HasError(e, InternalErrorCode, h.outcome.message))
      && (!HasKey(e, "error") ==> h.outcome.Returned? && Get(e, "result") == Some(JObject(h.outcome.result)))
  {
    var h := HandleRequest(request);
    ErrorDictExactlyForNotFound(request);
    RaisesAndPrintsOnlyForTools(request);
    if h.outcome.Returned? && HasKey(h.outcome.result, "error") {
      var message :| h.outcome.result == ErrorResult(MethodNotFound, message);
      assert Get(h.outcome.result, "error") ==
        Some(JObject([("code", JInt(MethodNotFound)), ("message", JStr(message))]));
      assert HasError(Respond(request), MethodNotFound, message);
    }
  }
}

/**
 * The HTTP transport: `POST /mcp` answers one decoded request body with a
 * JSON-RPC envelope and permissive CORS headers, `OPTIONS /mcp` answers the
 * preflight, and `GET /` describes the server. Protocol-level errors travel
 * in a 200 response; an exception while handling gives a 500 response with
 * an -32603 envelope. A body that decodes to something other than an object
 * makes the `except` branch raise again, so the exception leaves the endpoint.
 */
module HttpTransport {
  import opened Wrappers
  import opened JsonValues
  import opened PyOps
  import opened Registry
  import opened Dispatcher
  import opened JsonRpc
  import StdioTransport

  /** An HTTP response the endpoint returns, or the exception that escapes it. */
  datatype Reply =
    | HttpResponse(status: int, headers: seq<(string, string)>, content: Json)
    | Unhandled(message: string)

  function CorsHeaders(): seq<(string, string)> {
    [ ("Access-Control-Allow-Origin", "*"),
      ("Access-Control-Allow-Methods", "POST, OPTIONS"),
      ("Access-Control-Allow-Headers", "Content-Type") ]
  }

  /** `POST /mcp` with a body that decoded as `body`. */
  function McpEndpoint(body: Decoded): (r: Reply)
    ensures r.HttpResponse? ==> r.headers == CorsHeaders() && r.status in {200, 500}
    ensures r.Unhandled? <==> body.Parsed? && !body.value.JObject?
  {
    match body
    case Unparsable(message) => HttpResponse(500, CorsHeaders(), JObject(InternalError(JNull, message)))
    case Parsed(v) =>
      if !v.JObject? then Unhandled(NoAttribute(v, "get"))
      else
        var requestId := RequestId(v.members);
        match HandleRequest(v.members).outcome
        case Returned(result) => HttpResponse(200, CorsHeaders(), JObject(Envelope(requestId, result)))
        case Raised(message) => HttpResponse(500, CorsHeaders(), JObject(InternalError(requestId, message)))
  }

  /** `OPTIONS /mcp`: the CORS preflight, answered without an envelope. */
  function McpOptions(): (j: Json)
    ensures j.JObject? && Get(j.members, "status") == Some(JStr("ok"))
  {
    JObject([("status", JStr("ok"))])
  }

  /** `GET /`: the server's name, mode, the registered tool names in registration order, and the endpoint. */
  function Root(): (j: Json)
    ensures j.JObject?
    ensures Get(j.members, "tools") == Some(JArray([JStr("add"), JStr("multiply"), JStr("uppercase")]))
    ensures Get(j.members, "endpoint") == Some(JStr("/mcp"))
  {
    CatalogNames();
    var j := JObject([
      ("name", JStr("Simple MCP Server")),
      ("mode", JStr("streamable-http")),
      ("tools", JArray(seq(|ToolNames()|, k requires 0 <= k < |ToolNames()| => JStr(ToolNames()[k])))),
      ("endpoint", JStr("/mcp"))
    ]);
    assert j.members[0].0 == "name" && j.members[1].0 == "mode" && j.members[2].0 == "tools" && j.members[3].0 == "endpoint";
    assert j.members[2].1 == JArray([JStr("add"), JStr("multiply"), JStr("uppercase")]);
    j
  }

  /**
   * A decoded request gets status 200 whenever the handler returns, also for
   * a -32601 error, and 500 when it raises; an undecodable body gets 500 with
   * an -32603 error and id None. Every response carries the CORS headers.
   */
  lemma EndpointStatus(body: Decoded)
    ensures var r := McpEndpoint(body);
      body.Unparsable? ==>
        && r == HttpResponse(500, CorsHeaders(), r.content) && r.content.JObject?
        && IsResponse(r.content.members, JNull)
        && HasError(r.content.members, InternalErrorCode, body.message)
    ensures var r := McpEndpoint(body);
      body.Parsed? && body.value.JObject? ==>
        var outcome := HandleRequest(body.value.members).outcome;
        && r.HttpResponse? && r.headers == CorsHeaders()
        && (r.status == 200 <==> outcome.Returned?)
        && (r.status == 500 <==> outcome.Raised?)
  {
  }

  /** For a decoded request object, the POST endpoint sends the transport-independent response. */
  lemma EndpointResponds(v: Json)
    requires v.JObject?
    ensures McpEndpoint(Parsed(v)).HttpResponse?
    ensures McpEndpoint(Parsed(v)).content == JObject(Respond(v.members))
    ensures IsResponse(McpEndpoint(Parsed(v)).content.members, RequestId(v.members))
  {
    match HandleRequest(v.members).outcome
    case Returned(result) =>
    case Raised(message) =>
  }

  /**
   * Transport independence: whatever lines came before it on stdio, the
   * response the stdio loop writes for a decoded request object is the
   * envelope the POST endpoint sends for the same request.
   */
  lemma EndpointAgreesWithStdio(lines: seq<Decoded>, k: nat)
    requires k < StdioTransport.HandledCount(lines) && lines[k].Parsed?
    ensures McpEndpoint(lines[k]).HttpResponse?
    ensures k < |StdioTransport.Responses(StdioTransport.Run(lines, None).0)|
    ensures McpEndpoint(lines[k]).content ==
      JObject(StdioTransport.Responses(StdioTransport.Run(lines, None).0)[k])
  {
    EndpointResponds(lines[k].value);
    StdioTransport.RunResponseAt(lines, None, k);
  }

  /** An unknown method or tool is a protocol error: status 200, code -32601 in the envelope. */
  lemma NotFoundIsStatus200(v: Json)
    requires v.JObject?
    requires !IsKnownMethod(MethodOf(v.members)) || CallsUnknownTool(v.members)
    ensures var r := McpEndpoint(Parsed(v));
      && r.HttpResponse? && r.status == 200 && r.headers == CorsHeaders()
      && exists message :: HasError(r.content.members, MethodNotFound, message)
  {
    RespondErrors(v.members);
    ErrorDictExactlyForNotFound(v.members);
  }
}

/**
 * The request dispatcher: `handle_request` routes a decoded request object
 * on its "method" member and builds a fresh result dict, an error dict
 * (`{"error": {code, message}}`), or raises an exception. The tool branches
 * also print a debug line to stdout before computing. The dispatcher keeps
 * no state between calls: `initialize` is accepted but never required.
 */
module Dispatcher {
  import opened Wrappers
  import opened JsonValues
  import opened PyText
  import opened PyOps
  import opened Registry

  /** What `handle_request` returns, or the text of the exception it raises. */
  datatype Outcome = Returned(result: Object) | Raised(message: string)

  /** The texts `handle_request` prints to stdout, then its outcome. */
  datatype Handled = Handled(printed: seq<string>, outcome: Outcome)

  /** JSON-RPC 2.0 "Method not found", used for unknown methods and unknown tools alike. */
  const MethodNotFound := -32601

  const ProtocolVersion := "2024-11-05"
  const UnknownToolPrefix := "未知的工具: "
  const UnknownMethodPrefix := "未知的方法: "

  function InitializeResult(): Object {
    [ ("protocolVersion", JStr(ProtocolVersion)),
      ("capabilities", JObject([("tools", JObject([]))])),
      ("serverInfo", JObject([("name", JStr("Simple MCP Server")), ("version", JStr("1.0.0"))])) ]
  }

  function ToolsListResult(): Object {
    [("tools", JArray(ToolsJson()))]
  }

  function PingResult(): Object {
    [("status", JStr("ok"))]
  }

  /** A tool result: one text content item. */
  function TextContent(text: string): Object {
    [("content", JArray([JObject([("type", JStr("text")), ("text", JStr(text))])]))]
  }

  /** The error dict a handler returns instead of raising. */
  function ErrorResult(code: int, message: string): Object {
    [("error", JObject([("code", JInt(code)), ("message", JStr(message))]))]
  }

  /** `request.get("method")` */
  function MethodOf(request: Object): Json {
    GetOr(request, "method", JNull)
  }

  /** `request.get("params", {})` */
  function ParamsOf(request: Object): Json {
    GetOr(request, "params", JObject([]))
  }

  predicate IsKnownMethod(rpcMethod: Json) {
    rpcMethod in [JStr("initialize"), JStr("tools/list"), JStr("tools/call"), JStr("ping")]
  }

  predicate IsKnownTool(name: Json) {
    name in [JStr("add"), JStr("multiply"), JStr("uppercase")]
  }

  /** `handle_request(request)`: at most one debug print, and printing or raising only for tools/call. */
  function HandleRequest(request: Object): (h: Handled)
    ensures |h.printed| <= 1
    ensures h.printed != [] || h.outcome.Raised? ==> MethodOf(request) == JStr("tools/call")
  {
    var rpcMethod := MethodOf(request);
    if rpcMethod == JStr("initialize") then Handled([], Returned(InitializeResult()))
    else if rpcMethod == JStr("tools/list") then Handled([], Returned(ToolsListResult()))
    else if rpcMethod == JStr("tools/call") then CallTool(ParamsOf(request))
    else if rpcMethod == JStr("ping") then Handled([], Returned(PingResult()))
    else Handled([], Returned(ErrorResult(MethodNotFound, UnknownMethodPrefix + Str(rpcMethod))))
  }

  /**
   * The `tools/call` branch of `handle_request`. A params value that is not
   * a dict raises on `.get`; a registered tool prints one debug line, which
   * holds a line break exactly when the arguments are a str holding one.
   */
  function CallTool(params: Json): (h: Handled)
    ensures !params.JObject? ==> h == Handled([], Raised(NoAttribute(params, "get")))
    ensures |h.printed| <= 1
    ensures h.printed != [] <==> params.JObject? && IsKnownTool(GetOr(params.members, "name", JNull))
    ensures params.JObject? && h.printed != [] ==>
      var arguments := GetOr(params.members, "arguments", JObject([]));
      ('\n' in h.printed[0] <==> arguments.JStr? && '\n' in arguments.s)
  {
    if !params.JObject? then Handled([], Raised(NoAttribute(params, "get")))
    else
      var toolName := GetOr(params.members, "name", JNull);
      var arguments := GetOr(params.members, "arguments", JObject([]));
      if toolName == JStr("add") then
        DebugLineBreak("add: ", arguments);
        Handled(["add: " + Str(arguments)], Arithmetic(arguments, true))
      else if toolName == JStr("multiply") then
        DebugLineBreak("multiply: ", arguments);
        Handled(["multiply: " + Str(arguments)], Arithmetic(arguments, false))
      else if toolName == JStr("uppercase") then
        DebugLineBreak("uppercase: ", arguments);
        Handled(["uppercase: " + Str(arguments)], Uppercase(arguments))
      else Handled([], Returned(ErrorResult(MethodNotFound, UnknownToolPrefix + Str(toolName))))
  }

  /** A debug line `prefix + str(arguments)` breaks exactly when the arguments are a str holding a line break. */
  lemma DebugLineBreak(prefix: string, arguments: Json)
    requires '\n' !in prefix
    ensures '\n' in prefix + Str(arguments) <==> arguments.JStr? && '\n' in arguments.s
  {
    var line := prefix + Str(arguments);
    if '\n' in line {
      var k :| 0 <= k < |line| && line[k] == '\n';
      assert k >= |prefix| && Str(arguments)[k - |prefix|] == '\n';
    }
    if arguments.JStr? && '\n' in arguments.s {
      var k :| 0 <= k < |arguments.s| && arguments.s[k] == '\n';
      assert line[|prefix| + k] == '\n';
    }
  }

  /** The add tool (`isAdd`) or the multiply tool: `a + b` with defaults 0, `a * b` with defaults 1. */
  function Arithmetic(arguments: Json, isAdd: bool): (r: Outcome)
    ensures !arguments.JObject? ==> r == Raised(NoAttribute(arguments, "get"))
    ensures arguments.JObject? ==>
      var default := JInt(if isAdd then 0 else 1);
      var a := GetOr(arguments.members, "a", default);
      var b := GetOr(arguments.members, "b", default);
      (r.Returned? <==> if isAdd then AddAccepts(a, b) else MulAccepts(a, b))
    ensures r.Returned? ==> exists text :: r.result == TextContent(text)
  {
    if !arguments.JObject? then Raised(NoAttribute(arguments, "get"))
    else
      var default := JInt(if isAdd then 0 else 1);
      var a := GetOr(arguments.members, "a", default);
      var b := GetOr(arguments.members, "b", default);
      match (if isAdd then Add(a, b) else Mul(a, b))
      case Value(v) => Returned(TextContent(Str(v)))
      case Raise(message) => Raised(message)
  }

  /** The uppercase tool: `text.upper()` with default "". */
  function Uppercase(arguments: Json): (r: Outcome)
    ensures r.Returned? <==> arguments.JObject? && GetOr(arguments.members, "text", JStr("")).JStr?
    ensures r.Raised? ==>
      if arguments.JObject? then r.message == NoAttribute(GetOr(arguments.members, "text", JStr("")), "upper")
      else r.message == NoAttribute(arguments, "get")
  {
    if !arguments.JObject? then Raised(NoAttribute(arguments, "get"))
    else
      var text := GetOr(arguments.members, "text", JStr(""));
      if text.JStr? then Returned(TextContent(Upper(text.s)))
      else Raised(NoAttribute(text, "upper"))
  }

  /** `request` is a tools/call of tool `name` whose argument dict is `args` (possibly by default). */
  predicate CallsTool(request: Object, name: string, args: Object) {
    && MethodOf(request) == JStr("tools/call")
    && ParamsOf(request).JObject?
    && GetOr(ParamsOf(request).members, "name", JNull) == JStr(name)
    && GetOr(ParamsOf(request).members, "arguments", JObject([])) == JObject(args)
  }

  /** `args.get(key, default)` is the int `n`: either `args[key] == n`, or the key is absent and `n == default`. */
  predicate IntArgument(args: Object, key: string, default: int, n: int) {
    GetOr(args, key, JInt(default)) == JInt(n)
  }

  /** initialize always succeeds with the fixed server description, whatever the params. */
  lemma InitializeIsConstant(request: Object)
    requires MethodOf(request) == JStr("initialize")
    ensures HandleRequest(request) == Handled([], Returned(InitializeResult()))
    ensures Get(InitializeResult(), "protocolVersion") == Some(JStr("2024-11-05"))
    ensures Get(InitializeResult(), "capabilities") == Some(JObject([("tools", JObject([]))]))
  {
  }

  /** ping always answers {"status": "ok"}, whatever the params. */
  lemma PingIsConstant(request: Object)
    requires MethodOf(request) == JStr("ping")
    ensures HandleRequest(request) == Handled([], Returned([("status", JStr("ok"))]))
  {
  }

  /**
   * tools/list answers the same for every request: the three registered
   * descriptors, verbatim and in registration order, whatever the params.
   */
  lemma ToolsListIsCatalog(r1: Object, r2: Object)
    requires MethodOf(r1) == JStr("tools/list") && MethodOf(r2) == JStr("tools/list")
    ensures HandleRequest(r1) == HandleRequest(r2)
    ensures HandleRequest(r1) == Handled([], Returned([("tools", JArray(ToolsJson()))]))
    ensures |ToolsJson()| == 3
    ensures forall k :: 0 <= k < 3 ==>
      ToolsJson()[k] == DescriptorJson(Catalog()[k]) && Catalog()[k].name == ["add", "multiply", "uppercase"][k]
  {
    CatalogContents();
    assert forall k :: 0 <= k < 3 ==> Catalog()[k].name == ToolNames()[k];
  }

  /** The add tool on an argument dict whose operands read as the ints a and b. */
  lemma AddOnInts(arguments: Json, a: int, b: int)
    requires arguments.JObject?
    requires IntArgument(arguments.members, "a", 0, a) && IntArgument(arguments.members, "b", 0, b)
    ensures Arithmetic(arguments, true) == Returned(TextContent(DecimalString(a + b)))
  {
    assert Add(JInt(a), JInt(b)) == Value(JInt(a + b));
  }

  /** add answers the decimal text of a + b, a missing operand counting as 0, after printing its arguments. */
  lemma AddReturnsSum(request: Object, args: Object, a: int, b: int)
    requires CallsTool(request, "add", args)
    requires IntArgument(args, "a", 0, a) && IntArgument(args, "b", 0, b)
    ensures HandleRequest(request).printed == ["add: " + Repr(JObject(args))]
    ensures HandleRequest(request).outcome == Returned(TextContent(DecimalString(a + b)))
    ensures DecimalValue(DecimalString(a + b)) == a + b
  {
    var arguments := JObject(args);
    assert HandleRequest(request) == CallTool(ParamsOf(request));
    assert CallTool(ParamsOf(request)) == Handled(["add: " + Str(arguments)], Arithmetic(arguments, true));
    AddOnInts(arguments, a, b);
    DecimalRoundTrip(a + b);
  }

  /** The multiply tool on an argument dict whose operands read as the ints a and b. */
  lemma MultiplyOnInts(arguments: Json, a: int, b: int)
    requires arguments.JObject?
    requires IntArgument(arguments.members, "a", 1, a) && IntArgument(arguments.members, "b", 1, b)
    ensures Arithmetic(arguments, false) == Returned(TextContent(DecimalString(a * b)))
  {
    assert Mul(JInt(a), JInt(b)) == Value(JInt(a * b));
  }

  /** multiply answers the decimal text of a * b, a missing operand counting as 1. */
  lemma MultiplyReturnsProduct(request: Object, args: Object, a: int, b: int)
    requires CallsTool(request, "multiply", args)
    requires IntArgument(args, "a", 1, a) && IntArgument(args, "b", 1, b)
    ensures HandleRequest(request).printed == ["multiply: " + Repr(JObject(args))]
    ensures HandleRequest(request).outcome == Returned(TextContent(DecimalString(a * b)))
    ensures DecimalValue(DecimalString(a * b)) == a * b
  {
    var arguments := JObject(args);
    assert HandleRequest(request) == CallTool(ParamsOf(request));
    assert CallTool(ParamsOf(request)) == Handled(["multiply: " + Str(arguments)], Arithmetic(arguments, false));
    MultiplyOnInts(arguments, a, b);
    DecimalRoundTrip(a * b);
  }

  /** uppercase answers the upper-cased text, a missing text counting as "". */
  lemma UppercaseReturnsUpper(request: Object, args: Object, text: string)
    requires CallsTool(request, "uppercase", args)
    requires GetOr(args, "text", JStr("")) == JStr(text)
    ensures HandleRequest(request).printed == ["uppercase: " + Repr(JObject(args))]
    ensures HandleRequest(request).outcome == Returned(TextContent(Upper(text)))
    ensures !HasKey(args, "text") ==> HandleRequest(request).outcome == Returned(TextContent(""))
  {
  }

  /**
   * A tools/call naming no registered tool (an absent name reads as None)
   * gets the -32601 error dict naming the tool, returned rather than raised.
   */
  lemma UnknownToolIsNotFound(request: Object)
    requires MethodOf(request) == JStr("tools/call") && ParamsOf(request).JObject?
    requires !IsKnownTool(GetOr(ParamsOf(request).members, "name", JNull))
    ensures var name := GetOr(ParamsOf(request).members, "name", JNull);
      HandleRequest(request) == Handled([], Returned(ErrorResult(MethodNotFound, UnknownToolPrefix + Str(name))))
    ensures var name := GetOr(ParamsOf(request).members, "name", JNull);
      name.JStr? ==> (UnknownToolPrefix + Str(name))[|UnknownToolPrefix|..] == name.s
  {
    var name := GetOr(ParamsOf(request).members, "name", JNull);
    assert name != JStr("add") && name != JStr("multiply") && name != JStr("uppercase");
  }

  /** A method other than the four known ones gets the -32601 error dict naming the method. */
  lemma UnknownMethodIsNotFound(request: Object)
    requires !IsKnownMethod(MethodOf(request))
    ensures HandleRequest(request) ==
      Handled([], Returned(ErrorResult(MethodNotFound, UnknownMethodPrefix + Str(MethodOf(request)))))
  {
  }

  /** The names the dispatcher recognises as tools are exactly the registered names. */
  lemma KnownToolsAreRegistered(name: Json)
    ensures IsKnownTool(name) <==> name.JStr? && name.s in ToolNames()
  {
    CatalogContents();
  }

  /** Only the error dict has an "error" key among the dicts the dispatcher builds. */
  lemma ErrorKeyOnlyInErrorResult()
    ensures !HasKey(InitializeResult(), "error")
    ensures !HasKey(ToolsListResult(), "error")
    ensures !HasKey(PingResult(), "error")
    ensures forall text :: !HasKey(TextContent(text), "error")
    ensures forall code, message :: HasKey(ErrorResult(code, message), "error")
  {
    assert Get(InitializeResult(), "error") == None;
    assert Get(ToolsListResult(), "error") == None;
    assert Get(PingResult(), "error") == None;
    forall text ensures !HasKey(TextContent(text), "error") {
      assert Get(TextContent(text), "error") == None;
    }
    forall code, message ensures HasKey(ErrorResult(code, message), "error") {
      assert ErrorResult(code, message)[0].0 == "error";
    }
  }

  /** Whether `request` is a tools/call whose params dict names no registered tool. */
  predicate CallsUnknownTool(request: Object) {
    && MethodOf(request) == JStr("tools/call")
    && ParamsOf(request).JObject?
    && !IsKnownTool(GetOr(ParamsOf(request).members, "name", JNull))
  }

  /**
   * The dispatcher returns a dict with an "error" key exactly for an unknown
   * method or a tools/call of an unknown tool, and then its code is -32601.
   */
  lemma ErrorDictExactlyForNotFound(request: Object)
    ensures var h := HandleRequest(request);
      (h.outcome.Returned? && HasKey(h.outcome.result, "error"))
        <==> (!IsKnownMethod(MethodOf(request)) || CallsUnknownTool(request))
    ensures var h := HandleRequest(request);
      h.outcome.Returned? && HasKey(h.outcome.result, "error") ==>
        exists message :: h.outcome.result == ErrorResult(MethodNotFound, message)
  {
    ErrorKeyOnlyInErrorResult();
    var h := HandleRequest(request);
    var params := ParamsOf(request);
    if MethodOf(request) == JStr("tools/call") {
      assert h == CallTool(params);
      if params.JObject? {
        var name := GetOr(params.members, "name", JNull);
        var args := GetOr(params.members, "arguments", JObject([]));
        if name == JStr("add") {
          assert h.outcome == Arithmetic(args, true);
        } else if name == JStr("multiply") {
          assert h.outcome == Arithmetic(args, false);
        } else if name == JStr("uppercase") {
          assert h.outcome == Uppercase(args);
        } else {
          assert h.outcome == Returned(ErrorResult(MethodNotFound, UnknownToolPrefix + Str(name)));
        }
      }
    }
  }

  /**
   * The dispatcher raises only inside tools/call and never for an unknown
   * tool, and prints only when it runs a registered tool.
   */
  lemma RaisesAndPrintsOnlyForTools(request: Object)
    ensures HandleRequest(request).outcome.Raised? ==>
      MethodOf(request) == JStr("tools/call") && !CallsUnknownTool(request)
    ensures HandleRequest(request).printed != [] ==>
      && MethodOf(request) == JStr("tools/call")
      && ParamsOf(request).JObject?
      && IsKnownTool(GetOr(ParamsOf(request).members, "name", JNull))
  {
  }

  /** add {a: 15, b: 27} answers "42"; multiply {a: 42, b: 3} answers "126". */
  lemma ArithmeticExamples()
    ensures Arithmetic(JObject([("a", JInt(15)), ("b", JInt(27))]), true) == Returned(TextContent("42"))
    ensures Arithmetic(JObject([("a", JInt(42)), ("b", JInt(3))]), false) == Returned(TextContent("126"))
  {
    var sum := [("a", JInt(15)), ("b", JInt(27))];
    assert sum[0].0 == "a" && sum[1].0 == "b";
    AddOnInts(JObject(sum), 15, 27);
    assert DecimalString(42) == "42";
    var product := [("a", JInt(42)), ("b", JInt(3))];
    assert product[0].0 == "a" && product[1].0 == "b";
    MultiplyOnInts(JObject(product), 42, 3);
    assert DecimalString(126) == "126";
  }

  /** With b missing, add {a: 5} and multiply {a: 5} both answer "5". */
  lemma DefaultOperandExamples()
    ensures Arithmetic(JObject([("a", JInt(5))]), true) == Returned(TextContent("5"))
    ensures Arithmetic(JObject([("a", JInt(5))]), false) == Returned(TextContent("5"))
  {
    var args := [("a", JInt(5))];
    assert args[0].0 == "a";
    AddOnInts(JObject(args), 5, 0);
    MultiplyOnInts(JObject(args), 5, 1);
    assert DecimalString(5) == "5";
  }

  /** uppercase {text: "hello"} answers "HELLO"; uppercase {} answers "". */
  lemma UppercaseExamples()
    ensures Uppercase(JObject([("text", JStr("hello"))])) == Returned(TextContent("HELLO"))
    ensures Uppercase(JObject([])) == Returned(TextContent(""))
  {
    assert Upper("hello") == "HELLO";
  }
}
